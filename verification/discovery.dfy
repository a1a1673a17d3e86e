/** Link discovery on the directory's search page: the search URL, the
    "smart suggestion" filter that may replace a niche by related
    categories, and the scrolling loop of `get_search_links` that
    collects company links. The browser is an oracle: for the loop, the
    hrefs the page shows at each scroll iteration. */
module Discovery {
  import opened Text
  import opened Seqs

  /** The directory's search page for a query in a city. */
  function SearchPageUrl(city: string, query: string): (r: string)
    ensures r == "https://2gis.ru/" + city + "/search/" + query
    ensures StartsWith(r, "https://2gis.ru/")
    ensures EndsWith(r, "/search/" + query)
  {
    var r := "https://2gis.ru/" + city + "/search/" + query;
    assert r[..|"https://2gis.ru/"|] == "https://2gis.ru/";
    assert r[|r| - |"/search/" + query|..] == "/search/" + query;
    r
  }

  /** The URL `get_search_links` opens: a query that is already a URL is
      used as it is, anything else becomes a search page. */
  function SearchUrl(city: string, query: string): (r: string)
    ensures StartsWith(r, "http")
    ensures EndsWith(r, query)
    ensures StartsWith(query, "http") ==> r == query
    ensures !StartsWith(query, "http") ==> r == SearchPageUrl(city, query)
  {
    if StartsWith(query, "http") then
      assert EndsWith(query, query) by { assert query[|query| - |query|..] == query; }
      query
    else
      var r := SearchPageUrl(city, query);
      assert r[|r| - |query|..] == query by {
        assert r[|r| - |"/search/" + query|..] == "/search/" + query;
      }
      assert r[..4] == "https://2gis.ru/"[..4];
      r
  }

  // ---------------------------------------------------------------- suggestions

  /** A candidate text looks like an address: it has a digit and a comma. */
  predicate LooksLikeAddress(text: string) {
    HasDigit(text) && ',' in text
  }

  /** A stripped candidate text is kept as a suggestion: non-empty, not an
      address, longer than three characters, and not the query itself up to
      case. */
  predicate KeepSuggestion(text: string, query: string) {
    text != [] && !LooksLikeAddress(text) && |text| > 3 && Lower(text) != Lower(query)
  }

  /** The stripped texts that pass the filter, in page order. */
  function SuggestionCandidates(texts: seq<string>, query: string): (r: seq<string>)
    ensures forall s :: s in r <==> exists t :: t in texts && s == Strip(t) && KeepSuggestion(s, query)
    decreases |texts|
  {
    if texts == [] then []
    else
      var rest := SuggestionCandidates(texts[1..], query);
      assert forall t :: t in texts <==> t == texts[0] || t in texts[1..];
      var text := Strip(texts[0]);
      if KeepSuggestion(text, query) then [text] + rest else rest
  }

  /** The suggestion list of `get_smart_suggestions` for the texts of the
      category chips and links on the search page: each kept text once. */
  function SmartSuggestions(texts: seq<string>, query: string): (r: seq<string>)
    ensures NoDup(r)
    ensures forall s :: s in r <==> exists t :: t in texts && s == Strip(t) && KeepSuggestion(s, query)
    ensures forall s :: s in r ==>
              |s| > 3 && Strip(s) == s && !LooksLikeAddress(s) && Lower(s) != Lower(query)
  {
    var r := Dedup(SuggestionCandidates(texts, query));
    forall s | s in r
      ensures Strip(s) == s
    {
      var t :| t in texts && s == Strip(t) && KeepSuggestion(s, query);
      StripIdempotent(t);
    }
    r
  }

  /** The queries searched for a niche: the suggestions when there are any,
      otherwise the niche itself. */
  function ExpandQueries(niche: string, suggestions: seq<string>): (r: seq<string>)
    ensures r != []
    ensures suggestions != [] ==> r == suggestions
    ensures suggestions == [] ==> r == [niche]
  {
    if suggestions != [] then suggestions else [niche]
  }

  /** The niche is searched exactly when no suggestion replaced it: the
      suggestion filter never returns the query itself. */
  lemma NicheSearchedIffNoSuggestions(niche: string, texts: seq<string>)
    ensures niche in ExpandQueries(niche, SmartSuggestions(texts, niche)) <==> SmartSuggestions(texts, niche) == []
  {
  }

  // ---------------------------------------------------------------- scrolling

  /** What one scroll iteration sees: the hrefs of the company links then
      attached to the page, or a fault (a stale element or a failed script),
      which ends the whole collection with no links. */
  datatype Batch = Hrefs(hrefs: seq<string>) | Fault

  /** Consecutive iterations without a new link tolerated before giving up;
      the loop stops when the count exceeds this. */
  const MaxNoNewAttempts: nat := 15

  /** A collected href: present and containing `firm`. */
  predicate IsFirmHref(h: string) {
    h != [] && Contains(h, "firm")
  }

  /** The batch of iteration `i`; past the oracle's end the page shows nothing new. */
  function BatchAt(batches: seq<Batch>, i: nat): Batch {
    if i < |batches| then batches[i] else Hrefs([])
  }

  function FirmHrefs(b: Batch): set<string> {
    if b.Fault? then {} else set h | h in b.hrefs && IsFirmHref(h)
  }

  /** The href is shown by some batch of the oracle. */
  predicate Offered(batches: seq<Batch>, h: string) {
    exists i :: 0 <= i < |batches| && batches[i].Hrefs? && h in batches[i].hrefs
  }

  /** The set of links collected after `k` iterations. */
  function Seen(batches: seq<Batch>, k: nat): set<string>
    decreases k
  {
    if k == 0 then {} else Seen(batches, k - 1) + FirmHrefs(BatchAt(batches, k - 1))
  }

  /** Every collected link contains `firm` and was shown by some batch. */
  lemma {:induction false} SeenOffered(batches: seq<Batch>, k: nat)
    ensures forall h :: h in Seen(batches, k) ==> IsFirmHref(h) && Offered(batches, h)
    decreases k
  {
    if k > 0 {
      SeenOffered(batches, k - 1);
      var b := BatchAt(batches, k - 1);
      if k - 1 < |batches| && b.Hrefs? {
        assert b == batches[k - 1];
      }
    }
  }

  /** How many of the iterations up to `k`, counted back from `k`, added no link. */
  function Quiet(batches: seq<Batch>, k: nat): (r: nat)
    ensures r <= k
    decreases k
  {
    if k == 0 then 0
    else if |Seen(batches, k)| == |Seen(batches, k - 1)| then Quiet(batches, k - 1) + 1
    else 0
  }

  /** After `k` iterations the loop stops: the cap is reached, or too many
      iterations in a row added nothing. */
  predicate Stops(batches: seq<Batch>, maxItems: int, k: nat) {
    |Seen(batches, k)| >= maxItems || Quiet(batches, k) > MaxNoNewAttempts
  }

  predicate FaultFree(batches: seq<Batch>, k: nat) {
    forall i :: 0 <= i < k ==> BatchAt(batches, i).Hrefs?
  }

  predicate FaultedAt(batches: seq<Batch>, k: nat) {
    k > 0 && BatchAt(batches, k - 1).Fault?
  }

  /** A subset as large as its superset is the superset. */
  lemma SubsetOfSameSize(small: set<string>, large: set<string>)
    requires small <= large
    requires |small| == |large|
    ensures small == large
  {
    assert |large - small| == |large| - |small|;
  }

  /** Adding elements never shrinks a set. */
  lemma UnionGrows(a: set<string>, b: set<string>)
    ensures |a| <= |a + b|
  {
    assert a + b == a + (b - a);
    assert a !! (b - a);
  }

  /** A quiet iteration leaves the collected set unchanged. */
  lemma QuietStepAddsNothing(batches: seq<Batch>, k: nat)
    requires k > 0 && Quiet(batches, k) > 0
    ensures Seen(batches, k - 1) == Seen(batches, k)
  {
    var prev := Seen(batches, k - 1);
    var now := Seen(batches, k);
    assert |now| == |prev|;
    SubsetOfSameSize(prev, now);
  }

  /** The last `n` iterations of a quiet run leave the collected set as it
      was before them. */
  lemma {:induction false} QuietRunAddsNothing(batches: seq<Batch>, k: nat, n: nat)
    requires n <= Quiet(batches, k)
    ensures Seen(batches, k - n) == Seen(batches, k)
    decreases n
  {
    if n > 0 {
      QuietStepAddsNothing(batches, k);
      QuietRunAddsNothing(batches, k - 1, n - 1);
    }
  }

  /** One more fault-free iteration: the collected set grows by the batch's
      links and the quiet count goes up or resets. */
  lemma NextIteration(batches: seq<Batch>, k: nat)
    requires FaultFree(batches, k)
    requires BatchAt(batches, k).Hrefs?
    ensures FaultFree(batches, k + 1)
    ensures Seen(batches, k + 1) == Seen(batches, k) + FirmHrefs(BatchAt(batches, k))
    ensures |Seen(batches, k)| <= |Seen(batches, k + 1)|
    ensures Quiet(batches, k + 1) ==
              if |Seen(batches, k + 1)| == |Seen(batches, k)| then Quiet(batches, k) + 1 else 0
  {
    UnionGrows(Seen(batches, k), FirmHrefs(BatchAt(batches, k)));
    forall i | 0 <= i < k + 1
      ensures BatchAt(batches, i).Hrefs?
    {
    }
  }

  /** None of the first `k` iterations met a stopping condition. */
  predicate NeverStopped(batches: seq<Batch>, maxItems: int, k: nat)
    decreases k
  {
    k == 0 || (!Stops(batches, maxItems, k) && NeverStopped(batches, maxItems, k - 1))
  }

  lemma {:induction false} NeverStoppedBefore(batches: seq<Batch>, maxItems: int, k: nat)
    requires NeverStopped(batches, maxItems, k)
    ensures forall j :: 1 <= j <= k ==> !Stops(batches, maxItems, j)
    decreases k
  {
    if k > 0 {
      NeverStoppedBefore(batches, maxItems, k - 1);
    }
  }

  /** After `k` fault-free iterations the loop is still running. Since every
      iteration either adds a link or lengthens the quiet run, `k` is
      bounded by the links collected and the quiet run. */
  predicate Running(batches: seq<Batch>, maxItems: int, k: nat) {
    && FaultFree(batches, k)
    && NeverStopped(batches, maxItems, k)
    && Quiet(batches, k) <= MaxNoNewAttempts
    && k <= 16 * |Seen(batches, k)| + Quiet(batches, k)
  }

  /** One fault-free iteration of a running loop: the collected set and the
      quiet count move as `NextIteration` says, the iteration count stays
      within `16 * maxItems`, and unless the loop now stops, it is still
      running. */
  lemma StepRuns(batches: seq<Batch>, maxItems: int, k: nat)
    requires Running(batches, maxItems, k)
    requires k == 0 ==> maxItems > 0
    requires BatchAt(batches, k).Hrefs?
    ensures FaultFree(batches, k + 1)
    ensures Seen(batches, k + 1) == Seen(batches, k) + FirmHrefs(BatchAt(batches, k))
    ensures Quiet(batches, k + 1) ==
              if |Seen(batches, k + 1)| == |Seen(batches, k)| then Quiet(batches, k) + 1 else 0
    ensures !Stops(batches, maxItems, k + 1) ==> Running(batches, maxItems, k + 1)
    ensures k + 1 <= 16 * maxItems
  {
    NextIteration(batches, k);
    if k > 0 {
      assert |Seen(batches, k)| < maxItems;
    }
  }

  /** One fault-free pass of the scrolling loop body: the batch's `firm`
      links join the set; the loop stops when the cap is reached, otherwise
      the quiet count goes up or resets and the loop stops once it exceeds
      the tolerance. */
  method ScrollStep(batches: seq<Batch>, maxItems: int, k: nat, unique: set<string>, quiet: nat)
    returns (grown: set<string>, quiet': nat, stop: bool)
    requires Running(batches, maxItems, k)
    requires k == 0 ==> maxItems > 0
    requires BatchAt(batches, k).Hrefs?
    requires unique == Seen(batches, k) && quiet == Quiet(batches, k)
    ensures grown == Seen(batches, k + 1)
    ensures FaultFree(batches, k + 1)
    ensures k + 1 <= 16 * maxItems
    ensures stop <==> Stops(batches, maxItems, k + 1)
    ensures !stop ==> quiet' == Quiet(batches, k + 1) && Running(batches, maxItems, k + 1) && |grown| < maxItems
  {
    StepRuns(batches, maxItems, k);
    grown := unique + FirmHrefs(BatchAt(batches, k));
    if |grown| >= maxItems {
      return grown, quiet, true;
    }
    quiet' := if |grown| == |unique| then quiet + 1 else 0;
    stop := quiet' > MaxNoNewAttempts;
  }

  /** The scrolling loop of `get_search_links`: it returns the set of links
      collected and the number of iterations run, and says whether the last
      iteration faulted. Without a fault, the loop ran until the first
      iteration after which the cap was reached or more than 15 iterations
      in a row had added nothing. */
  method ScrollUntilDone(batches: seq<Batch>, maxItems: int) returns (unique: set<string>, scrolls: nat, faulted: bool)
    ensures maxItems <= 0 ==> scrolls == 0 && unique == {}
    ensures maxItems > 0 ==> 1 <= scrolls <= 16 * maxItems
    ensures faulted <==> FaultedAt(batches, scrolls)
    ensures scrolls > 0 ==> FaultFree(batches, scrolls - 1)
    ensures !faulted ==> unique == Seen(batches, scrolls)
    ensures !faulted && maxItems > 0 ==> Stops(batches, maxItems, scrolls)
    ensures forall k :: 1 <= k < scrolls ==> !Stops(batches, maxItems, k)
  {
    unique := {};
    faulted := false;
    var quiet: nat := 0;
    scrolls := 0;
    while |unique| < maxItems
      invariant maxItems <= 0 ==> scrolls == 0
      invariant scrolls > 0 ==> |unique| < maxItems
      invariant unique == Seen(batches, scrolls)
      invariant quiet == Quiet(batches, scrolls)
      invariant Running(batches, maxItems, scrolls)
      decreases 16 * maxItems - scrolls
    {
      NeverStoppedBefore(batches, maxItems, scrolls);
      var batch := BatchAt(batches, scrolls);
      if batch.Fault? {
        scrolls := scrolls + 1;
        faulted := true;
        return;
      }
      var stop;
      unique, quiet, stop := ScrollStep(batches, maxItems, scrolls, unique, quiet);
      scrolls := scrolls + 1;
      if stop {
        break;
      }
    }
  }

  /** `list(unique_links)[:max_items]`: the collected set as a list, cut at
      the cap. The result is duplicate-free, drawn from the set, and as long
      as the set or the cap, whichever is smaller. */
  method CapLinks(unique: set<string>, maxItems: int) returns (links: seq<string>)
    requires maxItems <= 0 ==> unique == {}
    ensures NoDup(links)
    ensures forall h :: h in links ==> h in unique
    ensures |links| == if |unique| < maxItems then |unique| else if maxItems > 0 then maxItems else 0
  {
    var all := ListOfSet(unique);
    links := Take(all, maxItems);
  }

  /** The loop ran exactly `scrolls` iterations: none with a non-positive
      cap; otherwise every iteration before the last was fault-free and did
      not stop the loop, and the last one faulted or stopped it. */
  predicate StoppedAt(batches: seq<Batch>, maxItems: int, scrolls: nat) {
    && (maxItems <= 0 ==> scrolls == 0)
    && (maxItems > 0 ==>
          scrolls >= 1 && FaultFree(batches, scrolls - 1) &&
          (FaultedAt(batches, scrolls) || Stops(batches, maxItems, scrolls)))
    && (forall k :: 1 <= k < scrolls ==> !Stops(batches, maxItems, k))
  }

  /** What one `get_search_links` call may return after `scrolls`
      iterations: the run stopped where `StoppedAt` says; a fault gives no
      links; otherwise the links are distinct links the run collected,
      all of them when there are fewer than `maxItems`, else `maxItems` of
      them. */
  predicate Collected(batches: seq<Batch>, maxItems: int, links: seq<string>, scrolls: nat) {
    && StoppedAt(batches, maxItems, scrolls)
    && NoDup(links)
    && (FaultedAt(batches, scrolls) ==> links == [])
    && (!FaultedAt(batches, scrolls) ==>
          (forall h :: h in links ==> h in Seen(batches, scrolls)) &&
          |links| == (if |Seen(batches, scrolls)| < maxItems then |Seen(batches, scrolls)|
                      else if maxItems > 0 then maxItems else 0))
  }

  /** The oracle decides where the loop stops: two runs over the same
      batches stop after the same iteration. */
  lemma StoppedAtUnique(batches: seq<Batch>, maxItems: int, s1: nat, s2: nat)
    requires StoppedAt(batches, maxItems, s1) && StoppedAt(batches, maxItems, s2)
    ensures s1 == s2
  {
  }

  /** Two calls over the same batches run the same iterations. Unless the
      run faulted or more than `maxItems` links were collected, both return
      the same links up to order: every link the run collected. A faulted
      run returns none; past the cap the result depends on the set's
      iteration order. */
  lemma CollectedDetermined(batches: seq<Batch>, maxItems: int, l1: seq<string>, s1: nat, l2: seq<string>, s2: nat)
    requires Collected(batches, maxItems, l1, s1) && Collected(batches, maxItems, l2, s2)
    ensures s1 == s2
    ensures !FaultedAt(batches, s1) && |Seen(batches, s1)| <= maxItems ==>
              Elems(l1) == Seen(batches, s1) && Elems(l2) == Seen(batches, s1)
  {
    StoppedAtUnique(batches, maxItems, s1, s2);
    if !FaultedAt(batches, s1) && |Seen(batches, s1)| <= maxItems {
      NoDupCard(l1);
      NoDupCard(l2);
      SubsetOfSameSize(Elems(l1), Seen(batches, s1));
      SubsetOfSameSize(Elems(l2), Seen(batches, s1));
    }
  }

  /** `get_search_links`: what `Collected` describes, within `16 * maxItems`
      iterations; every link contains `firm` and was shown by some batch.
      Short of the cap, the last 16 iterations added no link. */
  method CollectLinks(batches: seq<Batch>, maxItems: int) returns (links: seq<string>, scrolls: nat)
    ensures Collected(batches, maxItems, links, scrolls)
    ensures maxItems > 0 ==> 1 <= scrolls <= 16 * maxItems && |links| <= maxItems
    ensures forall h :: h in links ==> IsFirmHref(h) && Offered(batches, h)
    ensures !FaultedAt(batches, scrolls) && |links| < maxItems ==>
              scrolls > MaxNoNewAttempts &&
              Seen(batches, scrolls - (MaxNoNewAttempts + 1)) == Seen(batches, scrolls)
  {
    var unique, faulted;
    unique, scrolls, faulted := ScrollUntilDone(batches, maxItems);
    if faulted {
      return [], scrolls;
    }
    SeenOffered(batches, scrolls);
    links := CapLinks(unique, maxItems);
    if |links| < maxItems {
      QuietRunAddsNothing(batches, scrolls, MaxNoNewAttempts + 1);
    }
  }
}
