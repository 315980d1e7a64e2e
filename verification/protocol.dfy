/** The conventions of the listing endpoint: how a page is requested, and how
    a response says that a further page exists. */
module Protocol {
  import opened Wrappers
  import opened Text

  /** Query string pieces of `<endpoint>?_page=<N>&_limit=5`; the page size
      is fixed at 5 records. */
  const PAGE_PARAM: string := "?_page="
  const LIMIT_PARAM: string := "&_limit=5"

  /** The marker in the `Link` header announcing a next page. */
  const NEXT_MARKER: string := "rel=\"next\""

  /** The URL requested for page `page`. */
  function RequestUrl(endpoint: string, page: nat): (url: string)
    ensures |url| > |endpoint + PAGE_PARAM| + |LIMIT_PARAM|
    ensures url[..|endpoint + PAGE_PARAM|] == endpoint + PAGE_PARAM
    ensures url[|url| - |LIMIT_PARAM|..] == LIMIT_PARAM
    ensures Canonical(url[|endpoint + PAGE_PARAM|..|url| - |LIMIT_PARAM|])
  {
    var url := endpoint + PAGE_PARAM + NatToDecimal(page) + LIMIT_PARAM;
    assert url[|endpoint + PAGE_PARAM|..|url| - |LIMIT_PARAM|] == NatToDecimal(page);
    url
  }

  /** Recovers the page number from a URL addressed to `endpoint`, or `None`
      when the URL does not have the request shape. */
  function ParseRequestUrl(endpoint: string, url: string): Option<nat> {
    var head := endpoint + PAGE_PARAM;
    if |url| < |head| + |LIMIT_PARAM| then None
    else if url[..|head|] != head || url[|url| - |LIMIT_PARAM|..] != LIMIT_PARAM then None
    else
      var digits := url[|head|..|url| - |LIMIT_PARAM|];
      if Canonical(digits) then Some(DecimalToNat(digits)) else None
  }

  /** Every request URL names its page: parsing it gives the page back. */
  lemma RequestUrlRoundTrip(endpoint: string, page: nat)
    ensures ParseRequestUrl(endpoint, RequestUrl(endpoint, page)) == Some(page)
  {
    var url := RequestUrl(endpoint, page);
    var head := endpoint + PAGE_PARAM;
    assert url[|head|..|url| - |LIMIT_PARAM|] == NatToDecimal(page);
    DecimalRoundTrip(page);
  }

  /** Conversely, a URL that parses as page `page` is exactly the request
      URL of that page. */
  lemma ParsedUrlIsRequestUrl(endpoint: string, url: string, page: nat)
    requires ParseRequestUrl(endpoint, url) == Some(page)
    ensures url == RequestUrl(endpoint, page)
  {
    var head := endpoint + PAGE_PARAM;
    var digits := url[|head|..|url| - |LIMIT_PARAM|];
    CanonicalRoundTrip(digits);
    assert url == url[..|head|] + digits + url[|url| - |LIMIT_PARAM|..];
  }

  /** Distinct pages are requested through distinct URLs. */
  lemma RequestUrlInjective(endpoint: string, p: nat, q: nat)
    requires RequestUrl(endpoint, p) == RequestUrl(endpoint, q)
    ensures p == q
  {
    RequestUrlRoundTrip(endpoint, p);
    RequestUrlRoundTrip(endpoint, q);
  }

  /** Whether the response announces a further page: the `Link` header is
      present and contains `rel="next"` (a missing or empty header means no). */
  function HasNextPage(link: Option<string>): (r: bool)
    ensures r <==> link.Some? && exists i :: OccursAt(link.value, NEXT_MARKER, i)
  {
    match link
    case None => false
    case Some(header) => if header == "" then false else Includes(header, NEXT_MARKER)
  }

  /** The header the listing endpoint sends on a page that has a successor
      announces a next page; a response without the header does not. */
  lemma NextLinkDetected()
    ensures HasNextPage(Some("<http://localhost:3001/api/applications?_page=2&_limit=5>; rel=\"next\""))
    ensures !HasNextPage(None)
  {
    var h := "<http://localhost:3001/api/applications?_page=2&_limit=5>; rel=\"next\"";
    assert OccursAt(h, NEXT_MARKER, |h| - |NEXT_MARKER|);
  }
}
