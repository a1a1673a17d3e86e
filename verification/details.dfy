/** One company page turned into a record (`_extract_company_details` and
    `parse_company_page`). The page is given as the texts of its `h1`
    headings and its link elements, in document order. */
module Details {
  import opened Outcomes
  import opened Text
  import opened Seqs
  import opened Phones
  import opened Websites

  /** What the browser shows of a loaded company page. */
  datatype Page = Page(headings: seq<string>, anchors: seq<Anchor>)

  /** The record the parser builds for a page. Lists that came out of a
      Python set are duplicate-free; their order carries no meaning. */
  datatype CompanyDetails = CompanyDetails(
    name: Option<string>,
    city: string,
    country: string,
    address: Option<string>,
    phones: seq<string>,
    websites: seq<string>,
    emails: seq<string>)

  /** The country every record is labelled with. */
  const Country: string := "Россия"

  const TelScheme: string := "tel:"
  const MailtoScheme: string := "mailto:"

  /** A link the address selector matches: its `href` contains `/geo/`. */
  predicate IsGeoLink(a: Anchor) {
    Contains(a.href, "/geo/")
  }

  /** The text of the first `h1`, if the page has one. */
  function Name(page: Page): (r: Option<string>)
    ensures r.None? <==> page.headings == []
    ensures r.Some? ==> r.value == page.headings[0]
  {
    if page.headings == [] then None else Some(page.headings[0])
  }

  /** The text of the first address link, if the page has one. */
  function Address(anchors: seq<Anchor>): (r: Option<string>)
    ensures r.None? <==> forall k :: 0 <= k < |anchors| ==> !IsGeoLink(anchors[k])
    ensures r.Some? ==>
              exists k :: 0 <= k < |anchors| && IsGeoLink(anchors[k]) && r.value == anchors[k].text &&
                forall j :: 0 <= j < k ==> !IsGeoLink(anchors[j])
    decreases |anchors|
  {
    if anchors == [] then None
    else if IsGeoLink(anchors[0]) then Some(anchors[0].text)
    else
      var r := Address(anchors[1..]);
      assert forall k :: 1 <= k < |anchors| ==> anchors[k] == anchors[1..][k - 1];
      r
  }

  /** The normalised number behind a `tel:` link. */
  function PhoneOf(href: string): string {
    NormalizePhone(RemoveAll(href, TelScheme))
  }

  /** The address behind a `mailto:` link. */
  function EmailOf(href: string): string {
    RemoveAll(href, MailtoScheme)
  }

  /** Normalised numbers of the `tel:` links, in document order. */
  function TelNumbers(anchors: seq<Anchor>): (r: seq<string>)
    ensures forall p :: p in r <==> exists a :: a in anchors && StartsWith(a.href, TelScheme) && p == PhoneOf(a.href)
    decreases |anchors|
  {
    if anchors == [] then []
    else
      var rest := TelNumbers(anchors[1..]);
      assert forall b :: b in anchors <==> b == anchors[0] || b in anchors[1..];
      if StartsWith(anchors[0].href, TelScheme) then [PhoneOf(anchors[0].href)] + rest else rest
  }

  /** Addresses of the `mailto:` links, in document order. */
  function MailAddresses(anchors: seq<Anchor>): (r: seq<string>)
    ensures forall e :: e in r <==> exists a :: a in anchors && StartsWith(a.href, MailtoScheme) && e == EmailOf(a.href)
    decreases |anchors|
  {
    if anchors == [] then []
    else
      var rest := MailAddresses(anchors[1..]);
      assert forall b :: b in anchors <==> b == anchors[0] || b in anchors[1..];
      if StartsWith(anchors[0].href, MailtoScheme) then [EmailOf(anchors[0].href)] + rest else rest
  }

  /** The phone list: every `tel:` link's number, normalised, each once. */
  function HarvestPhones(anchors: seq<Anchor>): (r: seq<string>)
    ensures NoDup(r)
    ensures forall p :: p in r <==> exists a :: a in anchors && StartsWith(a.href, TelScheme) && p == PhoneOf(a.href)
    ensures forall p :: p in r ==> p == [] || p[0] == '+'
  {
    Dedup(TelNumbers(anchors))
  }

  /** The e-mail list: every `mailto:` link's address, each once. */
  function HarvestEmails(anchors: seq<Anchor>): (r: seq<string>)
    ensures NoDup(r)
    ensures forall e :: e in r <==> exists a :: a in anchors && StartsWith(a.href, MailtoScheme) && e == EmailOf(a.href)
  {
    Dedup(MailAddresses(anchors))
  }

  /** The links the website selector matches: `href` starting with `http`. */
  function HttpAnchors(anchors: seq<Anchor>): (r: seq<Anchor>)
    ensures forall a :: a in r <==> a in anchors && StartsWith(a.href, "http")
    ensures |r| <= |anchors|
    ensures IsSubsequence(r, anchors)
    decreases |anchors|
  {
    if anchors == [] then []
    else
      var rest := HttpAnchors(anchors[1..]);
      assert forall b :: b in anchors <==> b == anchors[0] || b in anchors[1..];
      if StartsWith(anchors[0].href, "http") then
        assert ([anchors[0]] + rest)[1..] == rest;
        [anchors[0]] + rest
      else rest
  }

  /** The selector keeps document order: the candidates of two stretches
      of the page are those of the first followed by those of the second. */
  lemma {:induction false} HttpAnchorsAppend(a: seq<Anchor>, b: seq<Anchor>)
    ensures HttpAnchors(a + b) == HttpAnchors(a) + HttpAnchors(b)
    decreases |a|
  {
    if a == [] {
      assert a + b == b;
    } else {
      assert (a + b)[0] == a[0];
      assert (a + b)[1..] == a[1..] + b;
      HttpAnchorsAppend(a[1..], b);
    }
  }

  /** The record for a loaded page. */
  function ExtractDetails(page: Page, city: string, country: string): (r: CompanyDetails)
    ensures r.name == Name(page) && r.address == Address(page.anchors)
    ensures r.phones == HarvestPhones(page.anchors) && r.emails == HarvestEmails(page.anchors)
    ensures r.name.None? <==> page.headings == []
    ensures r.city == city && r.country == country
    ensures NoDup(r.phones) && NoDup(r.emails) && NoDup(r.websites)
    ensures forall p :: p in r.phones ==> p == [] || p[0] == '+'
    ensures r.websites == FinalWebsites(HttpAnchors(page.anchors), r.emails)
  {
    var emails := HarvestEmails(page.anchors);
    var anchors := HttpAnchors(page.anchors);
    var websites := FinalWebsites(anchors, emails);
    CompanyDetails(
      name := Name(page),
      city := city,
      country := country,
      address := Address(page.anchors),
      phones := HarvestPhones(page.anchors),
      websites := websites,
      emails := emails)
  }

  /** `parse_company_page`: a page that did not load gives no record;
      a loaded page is parsed with the city capitalised. */
  function ParseCompanyPage(page: Option<Page>, city: string): (r: Option<CompanyDetails>)
    ensures r.Some? <==> page.Some?
    ensures r.Some? ==> r.value.city == Capitalize(city) && r.value.country == Country
    ensures page.Some? ==> r == Some(ExtractDetails(page.value, Capitalize(city), Country))
  {
    match page
    case None => None
    case Some(p) => Some(ExtractDetails(p, Capitalize(city), Country))
  }
}
