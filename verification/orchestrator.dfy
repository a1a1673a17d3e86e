/** The concurrent scraper (`run_concurrent_scraper` and
    `process_links_chunk`): link collection over every niche and its
    expanded queries, global de-duplication, the chunk plan, and the
    workers that turn each chunk into company records. The directory
    site is an oracle; the thread pool is a loop that takes the chunks in
    an order it chooses, as `as_completed` does. */
module Orchestrator {
  import opened Outcomes
  import opened Text
  import opened Seqs
  import opened Details
  import opened Discovery

  /** What the directory shows, as seen through a browser session:
      the suggestion texts of a search page, the link batches of each
      scroll iteration on a search URL, each company page (none when it
      fails to load or to parse), and whether a worker's browser session
      starts for a given chunk. */
  datatype Site = Site(
    suggestionTexts: string -> seq<string>,
    scrollBatches: string -> seq<Batch>,
    pages: string -> Option<Page>,
    sessionStarts: seq<string> -> bool)

  /** A company record tagged with the URL it was parsed from. */
  datatype Company = Company(details: CompanyDetails, url: string)

  /** How phase 2 fails before any chunk is processed: `total // 0` for
      zero workers, and the thread pool's refusal of a negative worker
      count. */
  datatype Crash = ZeroWorkers | NegativeWorkers

  // ---------------------------------------------------------------- phase 1

  /** The queries searched for a niche: the niche alone, or, with smart
      expansion, its suggestions when there are any. */
  function Queries(site: Site, city: string, niche: string, smart: bool): (r: seq<string>)
    ensures r != []
    ensures !smart ==> r == [niche]
    ensures smart && SmartSuggestions(site.suggestionTexts(SearchPageUrl(city, niche)), niche) != [] ==>
              r == SmartSuggestions(site.suggestionTexts(SearchPageUrl(city, niche)), niche)
    ensures niche in r <==> !smart || SmartSuggestions(site.suggestionTexts(SearchPageUrl(city, niche)), niche) == []
    ensures forall q :: q in r ==>
              q == niche ||
              (smart && q in SmartSuggestions(site.suggestionTexts(SearchPageUrl(city, niche)), niche))
  {
    if smart then
      var texts := site.suggestionTexts(SearchPageUrl(city, niche));
      NicheSearchedIffNoSuggestions(niche, texts);
      ExpandQueries(niche, SmartSuggestions(texts, niche))
    else [niche]
  }

  /** The scroll batches the search for `query` shows. */
  function BatchesFor(site: Site, city: string, query: string): seq<Batch> {
    site.scrollBatches(SearchUrl(city, query))
  }

  /** `h` was shown by the search for some query of some niche. */
  predicate Discovered(site: Site, city: string, niches: seq<string>, smart: bool, h: string) {
    exists n, q :: n in niches && q in Queries(site, city, n, smart) && Offered(BatchesFor(site, city, q), h)
  }

  /** Every query phase 1 searches, niche by niche. */
  function AllQueries(site: Site, city: string, niches: seq<string>, smart: bool): (r: seq<string>)
    ensures |r| >= |niches|
    ensures forall q :: q in r <==> exists n :: n in niches && q in Queries(site, city, n, smart)
    decreases |niches|
  {
    if niches == [] then []
    else
      var init := niches[..|niches| - 1];
      var last := niches[|niches| - 1];
      assert forall n :: n in niches <==> n in init || n == last;
      AllQueries(site, city, init, smart) + Queries(site, city, last, smart)
  }

  /** One `get_search_links` call of phase 1: the query searched, the
      links it returned and the iterations it ran. */
  datatype Search = Search(query: string, links: seq<string>, scrolls: nat)

  /** The queries of a sequence of searches, in order. */
  function SearchedQueries(searches: seq<Search>): (r: seq<string>)
    ensures |r| == |searches|
    decreases |searches|
  {
    if searches == [] then []
    else SearchedQueries(searches[..|searches| - 1]) + [searches[|searches| - 1].query]
  }

  /** The links of a sequence of searches, concatenated in order. */
  function AllLinks(searches: seq<Search>): seq<string>
    decreases |searches|
  {
    if searches == [] then []
    else AllLinks(searches[..|searches| - 1]) + searches[|searches| - 1].links
  }

  /** Both views of a sequence of searches split where the sequence does. */
  lemma {:induction false} SearchesAppend(a: seq<Search>, b: seq<Search>)
    ensures SearchedQueries(a + b) == SearchedQueries(a) + SearchedQueries(b)
    ensures AllLinks(a + b) == AllLinks(a) + AllLinks(b)
    decreases |b|
  {
    if b == [] {
      assert a + b == a;
    } else {
      var init := b[..|b| - 1];
      assert (a + b)[..|a + b| - 1] == a + init;
      SearchesAppend(a, init);
    }
  }

  /** The search ran `get_search_links` on the query's batches: its
      iterations and links are what `Collected` allows. */
  predicate SearchRan(site: Site, city: string, maxItems: int, s: Search) {
    Collected(BatchesFor(site, city, s.query), maxItems, s.links, s.scrolls)
  }

  /** `h` was shown by the search for one of the queries. */
  predicate FoundBy(site: Site, city: string, queries: seq<string>, h: string) {
    exists q :: q in queries && Offered(BatchesFor(site, city, q), h)
  }

  /** Links one query's search showed were found by the queries. */
  lemma OfferedIsFound(site: Site, city: string, queries: seq<string>, j: nat, links: seq<string>)
    requires j < |queries|
    requires forall h :: h in links ==> Offered(BatchesFor(site, city, queries[j]), h)
    ensures forall h :: h in links ==> FoundBy(site, city, queries, h)
  {
    forall h | h in links
      ensures FoundBy(site, city, queries, h)
    {
      assert queries[j] in queries;
    }
  }

  /** The inner loop of phase 1: one search per query, in query order, and
      the concatenation of their links. Each search contributes at most
      `maxItems` links. */
  method SearchQueries(site: Site, city: string, queries: seq<string>, maxItems: int)
    returns (found: seq<string>, ghost searches: seq<Search>)
    ensures SearchedQueries(searches) == queries
    ensures found == AllLinks(searches)
    ensures forall k :: 0 <= k < |searches| ==> SearchRan(site, city, maxItems, searches[k])
    ensures maxItems <= 0 ==> found == []
    ensures maxItems > 0 ==> |found| <= |queries| * maxItems
    ensures forall h :: h in found ==> IsFirmHref(h) && FoundBy(site, city, queries, h)
  {
    found := [];
    searches := [];
    for j := 0 to |queries|
      invariant SearchedQueries(searches) == queries[..j]
      invariant found == AllLinks(searches)
      invariant forall k :: 0 <= k < |searches| ==> SearchRan(site, city, maxItems, searches[k])
      invariant maxItems <= 0 ==> found == []
      invariant maxItems > 0 ==> |found| <= j * maxItems
      invariant forall h :: h in found ==> IsFirmHref(h) && FoundBy(site, city, queries, h)
    {
      var links, scrolls := CollectLinks(BatchesFor(site, city, queries[j]), maxItems);
      OfferedIsFound(site, city, queries, j, links);
      MulSucc(j, maxItems);
      var search := Search(queries[j], links, scrolls);
      SearchStep(queries, j, searches, search);
      found := found + links;
      searches := searches + [search];
    }
    assert queries[..|queries|] == queries;
  }

  /** Running the search for the next query extends both views by it. */
  lemma SearchStep(queries: seq<string>, j: nat, searches: seq<Search>, search: Search)
    requires j < |queries| && SearchedQueries(searches) == queries[..j] && search.query == queries[j]
    ensures SearchedQueries(searches + [search]) == queries[..j + 1]
    ensures AllLinks(searches + [search]) == AllLinks(searches) + search.links
  {
    assert (searches + [search])[..|searches|] == searches;
    assert queries[..j + 1] == queries[..j] + [queries[j]];
  }

  /** Links found by the queries of one niche were discovered. */
  lemma FoundIsDiscovered(site: Site, city: string, niches: seq<string>, smart: bool, i: nat, found: seq<string>)
    requires i < |niches|
    requires forall h :: h in found ==> FoundBy(site, city, Queries(site, city, niches[i], smart), h)
    ensures forall h :: h in found ==> Discovered(site, city, niches, smart, h)
  {
    forall h | h in found
      ensures Discovered(site, city, niches, smart, h)
    {
      assert niches[i] in niches;
    }
  }

  /** One niche of phase 1: its queries, searched in order. */
  method SearchNiche(site: Site, city: string, niches: seq<string>, i: nat, maxItems: int, smart: bool)
    returns (found: seq<string>, ghost searches: seq<Search>)
    requires i < |niches|
    ensures SearchedQueries(searches) == Queries(site, city, niches[i], smart)
    ensures found == AllLinks(searches)
    ensures forall k :: 0 <= k < |searches| ==> SearchRan(site, city, maxItems, searches[k])
    ensures maxItems <= 0 ==> found == []
    ensures maxItems > 0 ==> |found| <= |searches| * maxItems
    ensures forall h :: h in found ==> IsFirmHref(h) && Discovered(site, city, niches, smart, h)
  {
    var queries := Queries(site, city, niches[i], smart);
    found, searches := SearchQueries(site, city, queries, maxItems);
    FoundIsDiscovered(site, city, niches, smart, i, found);
  }

  /** Phase 1: one search per query of every niche, in order, and all their
      links, duplicates kept. Each link contains `firm` and was shown by
      one of the searches; each search contributes at most `maxItems` of
      them. */
  method CollectAllLinks(site: Site, city: string, niches: seq<string>, maxItems: int, smart: bool)
    returns (all: seq<string>, ghost searches: seq<Search>)
    ensures SearchedQueries(searches) == AllQueries(site, city, niches, smart)
    ensures all == AllLinks(searches)
    ensures forall k :: 0 <= k < |searches| ==> SearchRan(site, city, maxItems, searches[k])
    ensures maxItems <= 0 ==> all == []
    ensures maxItems > 0 ==> |all| <= |AllQueries(site, city, niches, smart)| * maxItems
    ensures forall h :: h in all ==> IsFirmHref(h) && Discovered(site, city, niches, smart, h)
  {
    all := [];
    searches := [];
    for i := 0 to |niches|
      invariant SearchedQueries(searches) == AllQueries(site, city, niches[..i], smart)
      invariant all == AllLinks(searches)
      invariant forall k :: 0 <= k < |searches| ==> SearchRan(site, city, maxItems, searches[k])
      invariant maxItems <= 0 ==> all == []
      invariant maxItems > 0 ==> |all| <= |searches| * maxItems
      invariant forall h :: h in all ==> IsFirmHref(h) && Discovered(site, city, niches, smart, h)
    {
      var found, more := SearchNiche(site, city, niches, i, maxItems, smart);
      NicheStep(site, city, niches, smart, i);
      SearchesAppend(searches, more);
      if maxItems > 0 {
        BoundsAdd(|all|, |found|, |searches|, |more|, maxItems, |all + found|, |searches + more|);
      }
      all := all + found;
      searches := searches + more;
    }
    assert niches[..|niches|] == niches;
  }

  /** Taking one more niche appends its queries. */
  lemma NicheStep(site: Site, city: string, niches: seq<string>, smart: bool, i: nat)
    requires i < |niches|
    ensures AllQueries(site, city, niches[..i + 1], smart) ==
            AllQueries(site, city, niches[..i], smart) + Queries(site, city, niches[i], smart)
  {
    assert niches[..i + 1][..i] == niches[..i];
  }

  // ---------------------------------------------------------------- chunk plan

  /** Python's `a // b`: the quotient rounded toward negative infinity. */
  function FloorDiv(a: int, b: int): (r: int)
    requires b != 0
    ensures b > 0 ==> r * b <= a < r * b + b
    ensures b < 0 ==> r * b >= a > r * b + b
  {
    if b > 0 then a / b else (-a) / (-b)
  }

  /** `max(1, total // workers)`, raised to at least 5. With positive
      counts, the size is the share of each worker, unless that share is
      below 5. */
  function ChunkSize(total: int, workers: int): (r: int)
    requires workers != 0
    ensures r >= 5
    ensures workers > 0 && total >= 5 * workers ==> r * workers <= total < r * workers + workers
    ensures workers > 0 && total < 5 * workers ==> r == 5
  {
    var share := FloorDiv(total, workers);
    var size := if share > 1 then share else 1;
    if size < 5 then 5 else size
  }

  /** The contiguous slices `s[i:i + size]` for `i` in `range(0, |s|, size)`:
      they concatenate back to `s`, none is empty, none is longer than
      `size`, and all but the last are full. */
  function Chunks<T>(s: seq<T>, size: int): (r: seq<seq<T>>)
    requires size > 0
    ensures Flatten(r) == s
    ensures forall k :: 0 <= k < |r| ==> 0 < |r[k]| <= size
    ensures forall k :: 0 <= k < |r| - 1 ==> |r[k]| == size
    decreases |s|
  {
    if s == [] then []
    else if |s| <= size then
      assert Flatten([s]) == s + Flatten([s][1..]);
      [s]
    else
      var rest := Chunks(s[size..], size);
      var r := [s[..size]] + rest;
      assert r[1..] == rest;
      assert s[..size] + s[size..] == s;
      r
  }

  function Min(a: int, b: int): int {
    if a < b then a else b
  }

  /** Chunk `k` is the slice `s[k * size:(k + 1) * size]` of the comprehension. */
  lemma {:induction false} ChunkAt<T>(s: seq<T>, size: int, k: nat)
    requires size > 0
    requires k < |Chunks(s, size)|
    ensures k * size < |s|
    ensures Chunks(s, size)[k] == s[k * size..Min((k + 1) * size, |s|)]
    decreases k
  {
    if k == 0 {
      MulSucc(0, size);
      assert Chunks(s, size)[0] == s[..Min(size, |s|)];
    } else {
      ChunkStep(s, size, k);
      var tail := s[size..];
      var rest := Chunks(tail, size);
      ChunkAt(tail, size, k - 1);
      var lo, mid, hi := (k - 1) * size, k * size, (k + 1) * size;
      MulSucc(k - 1, size);
      MulSucc(k, size);
      MulNonNegative(k - 1, size);
      assert mid == lo + size && hi == mid + size;
      assert Min(hi, |s|) == Min(mid, |tail|) + size;
      assert rest[k - 1] == tail[lo..Min(mid, |tail|)];
      SliceOfDrop(s, size, lo, Min(mid, |tail|), mid, Min(hi, |s|));
    }
  }

  /** Past the first chunk, the chunks are those of the rest of the list. */
  lemma ChunkStep<T>(s: seq<T>, size: int, k: nat)
    requires size > 0
    requires 0 < k < |Chunks(s, size)|
    ensures |s| > size
    ensures k - 1 < |Chunks(s[size..], size)|
    ensures Chunks(s, size)[k] == Chunks(s[size..], size)[k - 1]
  {
    assert |s| > size;
    assert Chunks(s, size) == [s[..size]] + Chunks(s[size..], size);
  }

  lemma MulSucc(n: int, size: int)
    ensures (n + 1) * size == n * size + size
  {
  }

  lemma MulAdd(a: int, b: int, size: int)
    ensures (a + b) * size == a * size + b * size
  {
  }

  /** Two bounds of `n * size` and `m * size` add up to one of `(n + m) * size`. */
  lemma BoundsAdd(a: int, b: int, n: int, m: int, size: int, sum: int, count: int)
    requires a <= n * size && b <= m * size
    requires sum == a + b && count == n + m
    ensures sum <= count * size
  {
    MulAdd(n, m, size);
  }

  lemma MulNonNegative(n: nat, size: nat)
    ensures n * size >= 0
  {
  }

  /** There is one chunk per multiple of `size` below `|s|`, as
      `range(0, |s|, size)` yields. */
  lemma {:induction false} ChunkCount<T>(s: seq<T>, size: int)
    requires size > 0
    ensures s == [] <==> Chunks(s, size) == []
    ensures s != [] ==> (|Chunks(s, size)| - 1) * size < |s| <= |Chunks(s, size)| * size
    decreases |s|
  {
    if |s| > size {
      var tail := s[size..];
      ChunkCount(tail, size);
      var n := |Chunks(tail, size)|;
      assert |Chunks(s, size)| == n + 1;
      MulSucc(n, size);
      MulSucc(n - 1, size);
    }
  }

  // ---------------------------------------------------------------- phase 2

  /** The page parser a worker runs on each URL's page. */
  type Parser = Option<Page> -> Option<CompanyDetails>

  /** The URLs whose page the parser turns into a record, in order. */
  function Visited(site: Site, parse: Parser, urls: seq<string>): (r: seq<string>)
    ensures |r| <= |urls|
    ensures forall u :: u in r <==> u in urls && parse(site.pages(u)).Some?
    ensures NoDup(urls) ==> NoDup(r)
    decreases |urls|
  {
    if urls == [] then []
    else
      var rest := Visited(site, parse, urls[1..]);
      assert forall u :: u in urls <==> u == urls[0] || u in urls[1..];
      if parse(site.pages(urls[0])).Some? then
        assert NoDup(urls) ==> urls[0] !in urls[1..];
        NoDupConcat([urls[0]], rest);
        NoDupConcat([urls[0]], urls[1..]);
        [urls[0]] + rest
      else
        NoDupConcat([urls[0]], urls[1..]);
        rest
  }

  /** Checking one more URL extends the visited list at its end. */
  lemma {:induction false} VisitedSnoc(site: Site, parse: Parser, urls: seq<string>, u: string)
    ensures Visited(site, parse, urls + [u]) ==
            Visited(site, parse, urls) + (if parse(site.pages(u)).Some? then [u] else [])
    decreases |urls|
  {
    if urls == [] {
      assert urls + [u] == [u];
      assert [u][1..] == [];
    } else {
      assert (urls + [u])[0] == urls[0];
      assert (urls + [u])[1..] == urls[1..] + [u];
      VisitedSnoc(site, parse, urls[1..], u);
    }
  }

  /** The visited URLs keep the order they had in the chunk. */
  lemma {:induction false} VisitedKeepsOrder(site: Site, parse: Parser, urls: seq<string>)
    ensures IsSubsequence(Visited(site, parse, urls), urls)
    decreases |urls|
  {
    if urls != [] {
      VisitedKeepsOrder(site, parse, urls[1..]);
      var rest := Visited(site, parse, urls[1..]);
      if parse(site.pages(urls[0])).Some? {
        assert ([urls[0]] + rest)[1..] == rest;
      }
    }
  }

  function Urls(companies: seq<Company>): (r: seq<string>)
    ensures |r| == |companies|
    ensures forall k :: 0 <= k < |r| ==> r[k] == companies[k].url
  {
    seq(|companies|, k requires 0 <= k < |companies| => companies[k].url)
  }

  lemma UrlsSnoc(companies: seq<Company>, c: Company)
    ensures Urls(companies + [c]) == Urls(companies) + [c.url]
  {
  }

  /** The record is what the parser gives for its URL's page. */
  predicate ParsedBy(site: Site, parse: Parser, c: Company) {
    parse(site.pages(c.url)) == Some(c.details)
  }

  /** `process_links_chunk`: none when the worker's browser session does not
      start (the exception reaches the pool and the chunk is lost); otherwise
      one record per URL whose page yields one, in chunk order, tagged with
      that URL. */
  method ProcessChunk(site: Site, chunk: seq<string>, parse: Parser) returns (r: Option<seq<Company>>)
    ensures r.Some? <==> site.sessionStarts(chunk)
    ensures r.Some? ==> Urls(r.value) == Visited(site, parse, chunk)
    ensures r.Some? ==> forall c :: c in r.value ==> ParsedBy(site, parse, c)
  {
    if !site.sessionStarts(chunk) {
      return None;
    }
    var results: seq<Company> := [];
    for i := 0 to |chunk|
      invariant Urls(results) == Visited(site, parse, chunk[..i])
      invariant forall c :: c in results ==> ParsedBy(site, parse, c)
    {
      var url := chunk[i];
      var data := parse(site.pages(url));
      VisitedSnoc(site, parse, chunk[..i], url);
      assert chunk[..i + 1] == chunk[..i] + [url];
      if data.Some? {
        UrlsSnoc(results, Company(data.value, url));
        results := results + [Company(data.value, url)];
      }
    }
    assert chunk[..|chunk|] == chunk;
    return Some(results);
  }

  /** A duplicate-free concatenation comes from duplicate-free chunks that
      share no element. */
  lemma {:induction false} FlattenNoDup<T>(chunks: seq<seq<T>>)
    requires NoDup(Flatten(chunks))
    ensures forall k :: 0 <= k < |chunks| ==> NoDup(chunks[k])
    ensures forall k, m, x :: 0 <= k < |chunks| && 0 <= m < |chunks| && k != m && x in chunks[k] ==> x !in chunks[m]
    decreases |chunks|
  {
    if chunks != [] {
      NoDupConcat(chunks[0], Flatten(chunks[1..]));
      FlattenNoDup(chunks[1..]);
      forall k | 0 < k < |chunks|
        ensures forall x :: x in chunks[k] ==> x in Flatten(chunks[1..])
      {
        FlattenHolds(chunks[1..], k - 1);
      }
    }
  }

  /** Every chunk's elements occur in the concatenation. */
  lemma {:induction false} FlattenHolds<T>(chunks: seq<seq<T>>, k: nat)
    requires k < |chunks|
    ensures forall x :: x in chunks[k] ==> x in Flatten(chunks)
    decreases k
  {
    if k > 0 {
      FlattenHolds(chunks[1..], k - 1);
    }
  }

  /** Every element of the concatenation comes from some chunk. */
  lemma {:induction false} FlattenFrom<T>(chunks: seq<seq<T>>, x: T)
    requires x in Flatten(chunks)
    ensures exists k :: 0 <= k < |chunks| && x in chunks[k]
    decreases |chunks|
  {
    if x !in chunks[0] {
      FlattenFrom(chunks[1..], x);
      var k :| 0 <= k < |chunks[1..]| && x in chunks[1..][k];
      assert x in chunks[k + 1];
    }
  }

  /** The indices below `n`. */
  function Indices(n: nat): (r: set<nat>)
    ensures forall k: int :: k in r <==> 0 <= k < n
  {
    if n == 0 then {} else Indices(n - 1) + {n - 1}
  }

  lemma UrlsAppend(a: seq<Company>, b: seq<Company>)
    ensures Urls(a + b) == Urls(a) + Urls(b)
  {
  }

  /** Appending a finished chunk's records keeps the pool's invariants: URLs
      stay distinct, each record comes from a finished chunk, and every
      parsable URL of a started, finished chunk is present. */
  lemma MergeChunk(site: Site, chunks: seq<seq<string>>, parse: Parser, done: set<nat>, k: nat,
                   results: seq<Company>, batch: seq<Company>)
    requires NoDup(Flatten(chunks)) && k < |chunks| && k !in done
    requires forall m, n, x :: 0 <= m < |chunks| && 0 <= n < |chunks| && m != n && x in chunks[m] ==> x !in chunks[n]
    requires NoDup(chunks[k])
    requires NoDup(Urls(results))
    requires forall c :: c in results ==>
               exists m :: m in done && m < |chunks| && site.sessionStarts(chunks[m]) && c.url in chunks[m]
    requires site.sessionStarts(chunks[k])
    requires Urls(batch) == Visited(site, parse, chunks[k])
    ensures NoDup(Urls(results + batch))
    ensures forall c :: c in results + batch ==>
              exists m :: m in done + {k} && m < |chunks| && site.sessionStarts(chunks[m]) && c.url in chunks[m]
    ensures forall u :: u in Urls(results) ==> u in Urls(results + batch)
    ensures forall u :: u in chunks[k] && parse(site.pages(u)).Some? ==> u in Urls(results + batch)
  {
    UrlsAppend(results, batch);
    forall c | c in results
      ensures c.url !in Urls(batch)
    {
      var m :| m in done && m < |chunks| && site.sessionStarts(chunks[m]) && c.url in chunks[m];
    }
    NoDupConcat(Urls(results), Urls(batch));
    forall c | c in batch
      ensures c.url in chunks[k]
    {
      var i :| 0 <= i < |batch| && batch[i] == c;
      assert Urls(batch)[i] == c.url;
    }
  }

  /** The thread pool: every chunk is processed, results are merged in
      the order the workers finish (chosen freely here), and a lost chunk
      contributes nothing: each record comes from a chunk whose session
      started, and each such chunk's parsable URLs all have a record. */
  method Gather(site: Site, chunks: seq<seq<string>>, parse: Parser) returns (results: seq<Company>)
    requires NoDup(Flatten(chunks))
    ensures NoDup(Urls(results))
    ensures |results| <= |Flatten(chunks)|
    ensures forall c :: c in results ==> c.url in Flatten(chunks) && ParsedBy(site, parse, c)
    ensures forall c :: c in results ==>
              exists k :: 0 <= k < |chunks| && site.sessionStarts(chunks[k]) && c.url in chunks[k]
    ensures forall k, u :: 0 <= k < |chunks| && site.sessionStarts(chunks[k]) && u in chunks[k] && parse(site.pages(u)).Some? ==>
              u in Urls(results)
  {
    FlattenNoDup(chunks);
    results := [];
    var pending := Indices(|chunks|);
    ghost var done: set<nat> := {};
    while pending != {}
      invariant pending + done == Indices(|chunks|)
      invariant pending !! done
      invariant NoDup(Urls(results))
      invariant forall c :: c in results ==> ParsedBy(site, parse, c)
      invariant forall c :: c in results ==>
                  exists k :: k in done && k < |chunks| && site.sessionStarts(chunks[k]) && c.url in chunks[k]
      invariant forall k, u ::
                  k in done && k < |chunks| && site.sessionStarts(chunks[k]) && u in chunks[k] && parse(site.pages(u)).Some? ==>
                  u in Urls(results)
      decreases pending
    {
      var k :| k in pending;
      var r := ProcessChunk(site, chunks[k], parse);
      if r.Some? {
        MergeChunk(site, chunks, parse, done, k, results, r.value);
        results := results + r.value;
      }
      pending := pending - {k};
      done := done + {k};
    }
    forall c | c in results
      ensures c.url in Flatten(chunks)
    {
      var k :| k in done && k < |chunks| && site.sessionStarts(chunks[k]) && c.url in chunks[k];
      FlattenHolds(chunks, k);
    }
    DistinctWithin(Urls(results), Flatten(chunks));
  }

  // ---------------------------------------------------------------- the run

  /** The record is what `parse_company_page` gives for its URL, with the
      city as the run was given it. */
  predicate ParsedFrom(site: Site, city: string, c: Company) {
    ParseCompanyPage(site.pages(c.url), city) == Some(c.details)
  }

  /** The chunks a run with a positive worker count hands to its workers. */
  function Plan(unique: seq<string>, workers: int): seq<seq<string>>
    requires workers > 0
  {
    Chunks(unique, ChunkSize(|unique|, workers))
  }

  /** The first phase of `run_concurrent_scraper`: run every search and
      merge the links into a duplicate-free list (`list(set(all_links))`,
      in an order left open) that holds exactly the links the searches
      returned. */
  method Discover(site: Site, city: string, niches: seq<string>, maxItems: int, smart: bool)
    returns (unique: seq<string>, ghost all: seq<string>, ghost searches: seq<Search>)
    ensures SearchedQueries(searches) == AllQueries(site, city, niches, smart)
    ensures all == AllLinks(searches)
    ensures forall k :: 0 <= k < |searches| ==> SearchRan(site, city, maxItems, searches[k])
    ensures forall h :: h in unique <==> h in all
    ensures NoDup(unique) && |unique| == |Elems(all)|
    ensures forall h :: h in unique ==> IsFirmHref(h) && Discovered(site, city, niches, smart, h)
    ensures maxItems <= 0 ==> unique == []
  {
    var links;
    links, searches := CollectAllLinks(site, city, niches, maxItems, smart);
    all := links;
    unique := ListOfSet(Elems(links));
  }

  /** The second phase of `run_concurrent_scraper`: no records for an empty
      list; otherwise cut the list into chunks and hand them to the workers.
      A zero worker count fails at the division and a negative one when the
      pool is created. Each record comes from a chunk whose session
      started, and each such chunk yields a record for every URL whose page
      parses. */
  method Distribute(site: Site, city: string, unique: seq<string>, workers: int)
    returns (r: Result<seq<Company>, Crash>)
    requires NoDup(unique)
    ensures r.Failure? <==> unique != [] && workers <= 0
    ensures unique == [] ==> r == Success([])
    ensures unique != [] && workers == 0 ==> r == Failure(ZeroWorkers)
    ensures unique != [] && workers < 0 ==> r == Failure(NegativeWorkers)
    ensures r.Success? ==> NoDup(Urls(r.value)) && |r.value| <= |unique|
    ensures r.Success? ==> forall c :: c in r.value ==> c.url in unique && ParsedFrom(site, city, c)
    ensures r.Success? && workers > 0 ==>
              forall c :: c in r.value ==>
                exists k :: 0 <= k < |Plan(unique, workers)| &&
                            site.sessionStarts(Plan(unique, workers)[k]) && c.url in Plan(unique, workers)[k]
    ensures r.Success? && workers > 0 ==>
              forall k, u ::
                (0 <= k < |Plan(unique, workers)| && site.sessionStarts(Plan(unique, workers)[k]) &&
                 u in Plan(unique, workers)[k] && site.pages(u).Some?) ==> u in Urls(r.value)
    ensures r.Success? && (forall chunk :: site.sessionStarts(chunk)) ==>
              forall u :: u in unique && site.pages(u).Some? ==> u in Urls(r.value)
  {
    if |unique| == 0 {
      return Success([]);
    }
    if workers == 0 {
      return Failure(ZeroWorkers);
    }
    var size := ChunkSize(|unique|, workers);
    var chunks := Chunks(unique, size);
    if workers < 0 {
      return Failure(NegativeWorkers);
    }
    var parse: Parser := page => ParseCompanyPage(page, city);
    var results := Gather(site, chunks, parse);
    assert chunks == Plan(unique, workers);
    forall u | u in unique && site.pages(u).Some? && (forall chunk :: site.sessionStarts(chunk))
      ensures u in Urls(results)
    {
      FlattenFrom(chunks, u);
      assert parse(site.pages(u)).Some?;
    }
    assert forall c :: c in results ==> ParsedBy(site, parse, c);
    return Success(results);
  }

  /** `run_concurrent_scraper`: the links of every search, merged without
      duplicates, then the records the workers parse from them. */
  method RunScraper(site: Site, city: string, niches: seq<string>, maxItems: int, workers: int, smart: bool)
    returns (unique: seq<string>, r: Result<seq<Company>, Crash>, ghost all: seq<string>, ghost searches: seq<Search>)
    ensures SearchedQueries(searches) == AllQueries(site, city, niches, smart)
    ensures all == AllLinks(searches)
    ensures forall k :: 0 <= k < |searches| ==> SearchRan(site, city, maxItems, searches[k])
    ensures forall h :: h in unique <==> h in all
    ensures NoDup(unique) && |unique| == |Elems(all)|
    ensures forall h :: h in unique ==> IsFirmHref(h) && Discovered(site, city, niches, smart, h)
    ensures maxItems <= 0 ==> unique == []
    ensures r.Failure? <==> unique != [] && workers <= 0
    ensures unique == [] ==> r == Success([])
    ensures unique != [] && workers == 0 ==> r == Failure(ZeroWorkers)
    ensures unique != [] && workers < 0 ==> r == Failure(NegativeWorkers)
    ensures r.Success? ==> NoDup(Urls(r.value)) && |r.value| <= |unique|
    ensures r.Success? ==> forall c :: c in r.value ==> c.url in unique && ParsedFrom(site, city, c)
    ensures r.Success? && workers > 0 ==>
              forall c :: c in r.value ==>
                exists k :: 0 <= k < |Plan(unique, workers)| &&
                            site.sessionStarts(Plan(unique, workers)[k]) && c.url in Plan(unique, workers)[k]
    ensures r.Success? && workers > 0 ==>
              forall k, u ::
                (0 <= k < |Plan(unique, workers)| && site.sessionStarts(Plan(unique, workers)[k]) &&
                 u in Plan(unique, workers)[k] && site.pages(u).Some?) ==> u in Urls(r.value)
    ensures r.Success? && (forall chunk :: site.sessionStarts(chunk)) ==>
              forall u :: u in unique && site.pages(u).Some? ==> u in Urls(r.value)
  {
    unique, all, searches := Discover(site, city, niches, maxItems, smart);
    r := Distribute(site, city, unique, workers);
  }
}
