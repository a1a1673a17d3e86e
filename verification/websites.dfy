/** Website candidates on a company page: denylist filtering, priority
    ranking, de-duplication, and the fallback that derives a site from a
    corporate e-mail domain (the websites block of `_extract_company_details`). */
module Websites {
  import opened Outcomes
  import opened Text
  import opened Seqs

  /** A link element of the page: its `href` attribute and its visible text.
      An `href` the browser reports as missing is the empty string. */
  datatype Anchor = Anchor(href: string, text: string)

  /** Host fragments of platforms, aggregators and social networks. */
  const IgnoredDomains: seq<string> := [
    "2gis.", "google.", "yandex.", "otello.ru", "vk.com", "t.me",
    "instagram.com", "facebook.com", "twitter.com", "ok.ru",
    "youtube.com", "whatsapp.com", "wa.me", "apple.com",
    "play.google.com", "apps.apple.com", "booking.com", "tripadvisor.",
    "delivery-club.ru", "eda.yandex", "zoon.ru", "yell.ru", "onelink.me",
    "uber.com", "gettaxi", "city-mobil", "dostavista"
  ]

  /** Link-text vocabulary of app stores, ordering, routing and legal pages. */
  const IgnoredTextKeywords: seq<string> := [
    "скачать", "download", "app", "приложение", "google play", "app store",
    "заказать", "доставка", "меню", "такси", "маршрут", "поехать", "отзывы",
    "вход", "регистрация", "лицензионное", "соглашение", "политика", "конфиденциальности"
  ]

  /** Link texts that literally say "website". */
  const WebsiteLabels: seq<string> := ["сайт", "website", "веб-сайт"]

  /** Public mail providers, whose domain says nothing about the company. */
  const GenericMailDomains: seq<string> := [
    "gmail.com", "yandex.ru", "yandex.com", "mail.ru", "bk.ru",
    "list.ru", "inbox.ru", "yahoo.com", "hotmail.com", "outlook.com",
    "icloud.com", "rambler.ru", "ya.ru"
  ]

  /** The lower-cased `href` contains a denylisted host fragment. */
  predicate DomainDenied(href: string) {
    exists d :: d in IgnoredDomains && Contains(Lower(href), d)
  }

  /** The link text as the ranking sees it: lower-cased, then stripped. */
  function LinkText(a: Anchor): string {
    Strip(Lower(a.text))
  }

  /** The normalised link text contains a denylisted keyword. */
  predicate TextDenied(a: Anchor) {
    exists kw :: kw in IgnoredTextKeywords && Contains(LinkText(a), kw)
  }

  /** The link survives both denylists (and has an `href` at all). */
  predicate Survives(a: Anchor) {
    a.href != [] && !DomainDenied(a.href) && !TextDenied(a)
  }

  /** Text shaped like a domain name: a dot, no space, longer than three
      characters, not an ellipsis-truncated label. */
  predicate LooksLikeDomain(t: string) {
    '.' in t && ' ' !in t && |t| > 3 && !EndsWith(t, "...")
  }

  predicate IsPriority(a: Anchor) {
    LooksLikeDomain(LinkText(a)) || LinkText(a) in WebsiteLabels
  }

  /** `h` is the `href` of some surviving link. */
  predicate KeptHref(anchors: seq<Anchor>, h: string) {
    exists a :: a in anchors && Survives(a) && a.href == h
  }

  /** `h` is the `href` of some surviving priority link. */
  predicate PriorityHref(anchors: seq<Anchor>, h: string) {
    exists a :: a in anchors && Survives(a) && IsPriority(a) && a.href == h
  }

  /** The loop over the page's links with its two tests as parameters:
      links that pass `survives` go to the first list when they pass
      `priority` and to the second otherwise, each in document order. */
  function ClassifyBy(anchors: seq<Anchor>, survives: Anchor -> bool, priority: Anchor -> bool): (r: (seq<string>, seq<string>))
    ensures forall h :: h in r.0 <==> exists a :: a in anchors && survives(a) && priority(a) && a.href == h
    ensures forall h :: h in r.1 <==> exists a :: a in anchors && survives(a) && !priority(a) && a.href == h
    ensures |r.0| + |r.1| <= |anchors|
    decreases |anchors|
  {
    if anchors == [] then ([], [])
    else
      var rest := ClassifyBy(anchors[1..], survives, priority);
      var a := anchors[0];
      assert forall b :: b in anchors <==> b == a || b in anchors[1..];
      if !survives(a) then rest
      else if priority(a) then ([a.href] + rest.0, rest.1)
      else (rest.0, [a.href] + rest.1)
  }

  /** Both lists keep document order: classifying two stretches of the
      page gives the first stretch's lists followed by the second's. */
  lemma {:induction false} ClassifyByAppend(a: seq<Anchor>, b: seq<Anchor>, survives: Anchor -> bool, priority: Anchor -> bool)
    ensures ClassifyBy(a + b, survives, priority).0 == ClassifyBy(a, survives, priority).0 + ClassifyBy(b, survives, priority).0
    ensures ClassifyBy(a + b, survives, priority).1 == ClassifyBy(a, survives, priority).1 + ClassifyBy(b, survives, priority).1
    decreases |a|
  {
    if a == [] {
      assert a + b == b;
    } else {
      assert (a + b)[0] == a[0];
      assert (a + b)[1..] == a[1..] + b;
      ClassifyByAppend(a[1..], b, survives, priority);
    }
  }

  /** The page's links split into priority websites and the other
      surviving links, each list in document order. */
  function Classify(anchors: seq<Anchor>): (r: (seq<string>, seq<string>))
    ensures forall h :: h in r.0 <==> PriorityHref(anchors, h)
    ensures forall h :: h in r.1 <==> exists a :: a in anchors && Survives(a) && !IsPriority(a) && a.href == h
    ensures |r.0| + |r.1| <= |anchors|
  {
    ClassifyBy(anchors, Survives, IsPriority)
  }

  /** Classifying two stretches of the page gives the first stretch's lists
      followed by the second's. */
  lemma ClassifyAppend(a: seq<Anchor>, b: seq<Anchor>)
    ensures Classify(a + b).0 == Classify(a).0 + Classify(b).0
    ensures Classify(a + b).1 == Classify(a).1 + Classify(b).1
  {
    ClassifyByAppend(a, b, Survives, IsPriority);
  }

  /** Priority links first, then the rest, each `href` once at its first
      position. Only surviving links' `href`s appear, all of them, and a
      priority `href` precedes every `href` that is never priority. */
  function RankWebsites(anchors: seq<Anchor>): (r: seq<string>)
    ensures r == Dedup(Classify(anchors).0 + Classify(anchors).1)
    ensures NoDup(r)
    ensures forall h :: h in r <==> KeptHref(anchors, h)
    ensures forall h :: h in r ==> !DomainDenied(h)
    ensures forall i, j ::
              (0 <= i < |r| && 0 <= j < |r| &&
               PriorityHref(anchors, r[i]) && !PriorityHref(anchors, r[j])) ==> i < j
  {
    var (priority, found) := Classify(anchors);
    DedupFrontFirst(priority, found);
    Dedup(priority + found)
  }

  /** The second `@`-separated piece, `email.split("@")[1]`; none when the
      address has no `@` (the `IndexError` the source swallows). */
  function EmailDomain(email: string): (r: Option<string>)
    ensures r.None? <==> '@' !in email
    ensures r.Some? ==> '@' !in r.value
    ensures r.Some? ==>
              exists local :: '@' !in local &&
                (email == local + "@" + r.value || StartsWith(email, local + "@" + r.value + "@"))
  {
    var parts := Split(email, "@");
    SplitSingleIffAbsent(email, '@');
    SplitPiecesAvoidSeparator(email, '@');
    if |parts| >= 2 then
      JoinSplit(email, "@");
      assert parts[1..][0] == parts[1];
      assert Join(parts, "@") == parts[0] + "@" + Join(parts[1..], "@");
      assert |parts[1..]| == 1 ==> Join(parts[1..], "@") == parts[1];
      assert |parts[1..]| >= 2 ==> Join(parts[1..], "@") == parts[1] + "@" + Join(parts[2..], "@") by {
        assert parts[1..][1..] == parts[2..];
      }
      assert |parts[1..]| >= 2 ==> StartsWith(email, parts[0] + "@" + parts[1] + "@") by {
        if |parts[1..]| >= 2 {
          assert email == (parts[0] + "@" + parts[1] + "@") + Join(parts[2..], "@");
        }
      }
      Some(parts[1])
    else
      None
  }

  /** The e-mail's domain exists and is not a public mail provider. */
  predicate IsCorporate(email: string) {
    EmailDomain(email).Some? && EmailDomain(email).value !in GenericMailDomains
  }

  /** The domain of the first corporate address, scanning in list order. */
  function FirstCorporateDomain(emails: seq<string>): (r: Option<string>)
    ensures r.None? <==> forall k :: 0 <= k < |emails| ==> !IsCorporate(emails[k])
    ensures r.Some? ==>
              exists k :: 0 <= k < |emails| && IsCorporate(emails[k]) &&
                EmailDomain(emails[k]) == r && forall j :: 0 <= j < k ==> !IsCorporate(emails[j])
    decreases |emails|
  {
    if emails == [] then None
    else if IsCorporate(emails[0]) then EmailDomain(emails[0])
    else
      var r := FirstCorporateDomain(emails[1..]);
      assert forall k :: 1 <= k < |emails| ==> emails[k] == emails[1..][k - 1];
      r
  }

  /** The final website list: the ranked list when it is non-empty; otherwise
      `http://` plus the first corporate e-mail domain, if there is one. */
  function FinalWebsites(anchors: seq<Anchor>, emails: seq<string>): (r: seq<string>)
    ensures NoDup(r)
    ensures RankWebsites(anchors) != [] ==> r == RankWebsites(anchors)
    ensures RankWebsites(anchors) == [] ==>
              (r == [] <==> forall k :: 0 <= k < |emails| ==> !IsCorporate(emails[k]))
    ensures RankWebsites(anchors) == [] && r != [] ==>
              exists k :: 0 <= k < |emails| && IsCorporate(emails[k]) &&
                r == ["http://" + EmailDomain(emails[k]).value] &&
                forall j :: 0 <= j < k ==> !IsCorporate(emails[j])
  {
    var ranked := RankWebsites(anchors);
    if ranked == [] && emails != [] then
      match FirstCorporateDomain(emails)
      case Some(d) => ["http://" + d]
      case None => ranked
    else ranked
  }

  /** An address with exactly one `@` has the part after it as its domain. */
  lemma EmailDomainOf(local: string, domain: string)
    requires '@' !in local && '@' !in domain
    ensures EmailDomain(local + "@" + domain) == Some(domain)
  {
    SplitAtFirst(local, '@', domain);
    SplitAbsent(domain, '@');
    assert "@" == ['@'];
  }

  /** The e-mail fallback does not consult the domain denylist: a page with
      no website link and a single address at any non-public domain gets that
      domain as its website. The domain may be one the ranking would have
      refused: `vk.com` is in `IgnoredDomains` but not in
      `GenericMailDomains`, so `id@vk.com` yields `http://vk.com`. */
  lemma FallbackIgnoresDenylist(local: string, domain: string)
    requires '@' !in local && '@' !in domain && domain !in GenericMailDomains
    ensures FinalWebsites([], [local + "@" + domain]) == ["http://" + domain]
  {
    EmailDomainOf(local, domain);
    assert IsCorporate([local + "@" + domain][0]);
  }
}
