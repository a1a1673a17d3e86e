# 2GIS company scraper — a Dafny model of its core logic

The scraper searches the 2GIS directory for companies of given niches in a
city, optionally expanding each niche into related categories, scrolls the
result list to collect company links, and then parses each company page into
a record (name, city, country, address, phones, e-mails, websites) using
several workers. This project models the string, sequence and loop logic of
`selenium_parser.py` and proves properties of it. The browser is an oracle:

- the texts of a search page's suggestion chips and links;
- the hrefs each scroll iteration shows, or a fault;
- each company page's `h1` texts and `(href, text)` links;
- whether a worker's browser session starts.

Modules, one per file:

- `outcomes.dfy` — `Option` and `Result`.
- `text.dfy` — the Python `str` operations used: `lower`, `capitalize`,
  `strip`, `replace(p, "")`, `split`, `in`, and removal of non-digits.
- `seqs.dfy` — de-duplication, `list(set(...))`, slicing, concatenation.
- `phones.dfy` — `_normalize_phone`.
- `websites.dfy` — website ranking with the denylists and the e-mail
  fallback.
- `details.dfy` — `_extract_company_details` and `parse_company_page`.
- `discovery.dfy` — search URLs, suggestion filtering, query expansion and
  the scrolling loop of `get_search_links`.
- `orchestrator.dfy` — `run_concurrent_scraper` and `process_links_chunk`.

A few behaviours of the code are easy to assume otherwise, and the model
keeps them: links keep their query strings and fragments, the website list
has no length cap, a record without a name is still kept, `tel:` and
`mailto:` are removed wherever they occur in an href, and both 7 and 8 count
as the trunk digit of an 11-digit number.

## Model

| member | source | states |
|---|---|---|
| Phones.NormalizePhone | selenium_parser.py:341-360 | The result is empty exactly when the input has no digit. Otherwise it starts with `+`. Eleven digits led by 7 or 8 give `+7` and the last ten digits. Ten digits give `+7` and all of them. Any other count keeps a `+`-prefixed input as it is, else gives `+` and the digits. |
| Phones.RussianNumbersAreCanonical | selenium_parser.py:352-357 | Both Russian cases produce `+7` followed by exactly ten digits. |
| Phones.NormalizeKeepsDigits | selenium_parser.py:347-360 | Normalisation loses no digit. Only the trunk digit of an 11-digit number is replaced, by 7, and the 10-digit case gains a leading 7. |
| Phones.NormalizeIdempotent | selenium_parser.py:341-360 | Normalising an already normalised number changes nothing. |
| Text.Digits | selenium_parser.py:347 | The result holds exactly the input's digits, only digits, and is empty exactly when the input has none. |
| Text.DigitsAppend | selenium_parser.py:347 | Removing non-digits distributes over concatenation. |
| Text.StripIdempotent | selenium_parser.py:164 | `strip` applied twice equals `strip` applied once. |
| Text.CapitalizeIdempotent | selenium_parser.py:336 | `capitalize` applied twice equals `capitalize` applied once. |
| Text.JoinSplit | selenium_parser.py:496 | Joining the pieces of `split(sep)` with `sep` rebuilds the string. |
| Text.SplitAtFirst | selenium_parser.py:496 | The first occurrence of a one-character separator ends the first piece. |
| Text.RemoveAllIsConcatOfSplit | selenium_parser.py:400 | `replace(p, "")` equals joining the pieces of `split(p)` with nothing. |
| Seqs.Dedup | selenium_parser.py:477-483 | The result has no duplicates, holds exactly the input's elements, and lists them in the order of their first occurrence. |
| Seqs.DedupSnoc | selenium_parser.py:479-483 | Scanning one more element appends it exactly when it was not seen before, and otherwise changes nothing. |
| Seqs.DedupFrontFirst | selenium_parser.py:475-483 | In `dedup(a + b)` every element of `a` precedes every element found only in `b`. |
| Seqs.DedupIdempotent | selenium_parser.py:477-483 | De-duplicating twice equals de-duplicating once. |
| Seqs.ListOfSet | selenium_parser.py:600 | `list(set)` has no duplicates, the set's elements, and the set's size. |
| Seqs.Take | selenium_parser.py:323 | `xs[:n]` is a prefix of `xs`. Its length is `min(n, len)` for `n >= 0`, and drops `-n` elements from the end for negative `n`. |
| Websites.Classify | selenium_parser.py:436-472 | Among links that pass both denylists, the priority list holds exactly the hrefs of domain-like or "website"-labelled links. The other list holds exactly the rest. Together they hold at most one href per link. |
| Websites.ClassifyAppend | selenium_parser.py:436-472 | Classifying two stretches of the page gives each list of the first stretch followed by the same list of the second, so both lists keep document order. |
| Websites.RankWebsites | selenium_parser.py:445-485 | The ranking is the priority hrefs followed by the other hrefs, with later repeats dropped. It has no duplicates and holds exactly the hrefs of links passing both denylists, never a denylisted host. Every priority href comes before every href that is never priority. |
| Websites.EmailDomain | selenium_parser.py:496 | The result is none exactly when the address has no `@`. Otherwise it is the `@`-free piece right after the first `@`. |
| Websites.EmailDomainOf | selenium_parser.py:496 | For `local@domain` with a single `@`, the domain is `domain`. |
| Websites.FirstCorporateDomain | selenium_parser.py:494-501 | The result is none exactly when no address has a non-public domain. Otherwise it is the domain of the first address that has one. |
| Websites.FinalWebsites | selenium_parser.py:474-503 | A non-empty ranking is the result. Otherwise the result is empty exactly when no address is corporate; if not empty, it is the single entry `http://` plus the first corporate domain. |
| Websites.FallbackIgnoresDenylist | selenium_parser.py:487-503 | The fallback turns any single non-public address into that domain's website, including a denylisted host such as `vk.com`. |
| Details.Name | selenium_parser.py:374-378 | The name is the first `h1` text, and absent exactly when there is no `h1`. |
| Details.Address | selenium_parser.py:380-385 | The address is the text of the first `/geo/` link, and absent exactly when there is none. |
| Details.TelNumbers | selenium_parser.py:398-400 | The numbers are exactly the normalised `tel:` links with the scheme removed. |
| Details.HarvestPhones | selenium_parser.py:398-402 | The phone list holds each normalised `tel:` number once. Every phone is empty or starts with `+`. |
| Details.MailAddresses | selenium_parser.py:407-409 | The addresses are exactly the `mailto:` links with the scheme removed. |
| Details.HarvestEmails | selenium_parser.py:406-409 | The e-mail list holds each `mailto:` address once. |
| Details.HttpAnchors | selenium_parser.py:431 | Exactly the links whose href starts with `http` are website candidates, in document order. |
| Details.HttpAnchorsAppend | selenium_parser.py:431 | Selecting the `http` links of two stretches of the page gives those of the first followed by those of the second, so the candidates keep document order. |
| Details.ExtractDetails | selenium_parser.py:362-508 | The name is the first `h1` text, absent exactly when there is none. The address is the first `/geo/` link's text. The phones and e-mails are the harvested `tel:` and `mailto:` lists. City and country are as given. The three lists have no duplicates, and every phone is empty or starts with `+`. The websites are the ranking of the `http` links with the fallback over the record's own e-mails. |
| Details.ParseCompanyPage | selenium_parser.py:329-339 | There is a record exactly when the page loads. It is the extraction from that page with the city capitalised and the country `Россия`. |
| Discovery.SearchPageUrl | selenium_parser.py:122 | The search page is exactly `https://2gis.ru/`, the city, `/search/` and the query. |
| Discovery.SearchUrl | selenium_parser.py:215-219 | A query starting with `http` is used unchanged. Any other query gives its search page URL. Every URL starts with `http` and ends with the query. |
| Discovery.SuggestionCandidates | selenium_parser.py:161-173 | The candidates are exactly the stripped texts that are non-empty, not address-like, longer than three characters, and not the query up to case. |
| Discovery.SmartSuggestions | selenium_parser.py:161-177 | Each suggestion appears once and equals its stripped form. None looks like an address, has three or fewer characters, or equals the query up to case. |
| Discovery.ExpandQueries | selenium_parser.py:579-589 | The query list is never empty. Non-empty suggestions replace the niche. |
| Discovery.NicheSearchedIffNoSuggestions | selenium_parser.py:579-589 | The niche is among the searched queries exactly when it has no suggestions. |
| Discovery.SeenOffered | selenium_parser.py:252-256 | Every collected link contains `firm` and was shown by some scroll iteration. |
| Discovery.Quiet | selenium_parser.py:265-268 | The run of iterations that added nothing never exceeds the number of iterations. |
| Discovery.QuietRunAddsNothing | selenium_parser.py:265-278 | During a run of iterations that added nothing, the collected set does not change. |
| Discovery.NextIteration | selenium_parser.py:250-268 | A fault-free iteration adds its `firm` links to the set, never shrinks it, and raises or resets the quiet count. |
| Discovery.ScrollStep | selenium_parser.py:247-278 | One pass of the loop body adds the batch's `firm` links. It stops exactly when the cap is reached or the quiet tolerance is exceeded, and otherwise leaves the loop running with the quiet count updated. |
| Discovery.ScrollUntilDone | selenium_parser.py:238-278 | The loop runs at most `16 * max_items` iterations and stops at the first cap or more than 15 quiet iterations in a row, or at a fault. A non-positive cap runs no iteration. |
| Discovery.CapLinks | selenium_parser.py:323 | `list(unique_links)[:max_items]` has distinct links, all from the set, as many as the smaller of the set's size and the cap. |
| Discovery.CollectLinks | selenium_parser.py:213-327 | The loop stops at the first iteration that faults, reaches the cap or ends the quiet tolerance, within `16 * max_items` iterations. A fault gives no links. Otherwise the links are distinct collected `firm` links shown by the page: all of them when fewer than `max_items` were collected, else exactly `max_items`. Short of the cap, the last 16 iterations added nothing. |
| Discovery.StoppedAtUnique | selenium_parser.py:238-278 | Two runs of the loop over the same page stop after the same iteration. |
| Discovery.CollectedDetermined | selenium_parser.py:213-327 | Two calls on the same page run the same iterations. Unless the run faulted or more than `max_items` links were collected, both return exactly the collected links. |
| Orchestrator.Queries | selenium_parser.py:578-589 | Without expansion the only query is the niche. With expansion, a non-empty suggestion list is searched in full and in order, and the niche is searched exactly when there are no suggestions. |
| Orchestrator.AllQueries | selenium_parser.py:578-589 | Phase 1 searches at least one query per niche, and exactly the queries that some niche expands to. |
| Orchestrator.SearchQueries | selenium_parser.py:592-595 | There is one search per query, in query order, and the links are their concatenation. Each search returns what the scrolling loop allows on that query's page. There are at most `max_items` links per query, each containing `firm` and shown by one of the searches. |
| Orchestrator.SearchNiche | selenium_parser.py:578-595 | One niche's searches are exactly its queries, in order, and its links are their concatenation. Each link contains `firm` and was discovered for the niches. |
| Orchestrator.CollectAllLinks | selenium_parser.py:578-595 | Phase 1 runs one search per query of every niche, in order, and its links are the concatenation of theirs. Each search returns what the scrolling loop allows on that query's page. The links contain `firm`, were shown by a search of one of the niches' queries, and number at most `max_items` per search. |
| Orchestrator.FloorDiv | selenium_parser.py:610 | `a // b` is the largest integer whose product with a positive `b` is at most `a`, and symmetrically for a negative `b`. |
| Orchestrator.ChunkSize | selenium_parser.py:610-611 | The chunk size is at least 5. With positive counts it is each worker's floor share whenever that share is at least 5. |
| Orchestrator.Chunks | selenium_parser.py:613 | The chunks concatenate to the list. Each is non-empty and at most the chunk size, and all but the last are full. |
| Orchestrator.ChunkAt | selenium_parser.py:613 | Chunk `k` is exactly the slice `[k*size : (k+1)*size]` of the comprehension. |
| Orchestrator.ChunkCount | selenium_parser.py:613 | There are as many chunks as multiples of the size below the list length, and none for an empty list. |
| Orchestrator.Visited | selenium_parser.py:559-563 | The URLs kept are exactly those whose page parses, never more than the input, and distinct when the input is. |
| Orchestrator.VisitedKeepsOrder | selenium_parser.py:559-563 | The kept URLs appear in their chunk order. |
| Orchestrator.ProcessChunk | selenium_parser.py:553-566 | A worker whose session fails loses its chunk. Otherwise it returns one record per parsable URL, in chunk order, each tagged with its URL and equal to that URL's parse. |
| Orchestrator.FlattenNoDup | selenium_parser.py:613 | Chunks cut from a duplicate-free list are duplicate-free and pairwise disjoint. |
| Orchestrator.MergeChunk | selenium_parser.py:623-626 | Appending a started chunk's records keeps URLs distinct, keeps every record tied to a started chunk, and adds every parsable URL of that chunk. |
| Orchestrator.Gather | selenium_parser.py:615-631 | The merged records have distinct URLs, at most one per link, each correctly parsed. Every record comes from a chunk whose worker started, and every parsable URL of such a chunk is present, whatever the completion order. |
| Orchestrator.Discover | selenium_parser.py:570-600 | The duplicate-free link list holds exactly the links phase 1's searches returned, one entry per distinct link. Each contains `firm` and was discovered. A non-positive cap gives no links. |
| Orchestrator.Distribute | selenium_parser.py:600-631 | The phase fails exactly when the list is non-empty and the worker count is not positive. An empty list gives no records. Zero workers fails at the division and negative workers fail when the pool is created. Otherwise the phase succeeds, and the records have distinct URLs from the list, each correctly parsed. Each record comes from a planned chunk whose session started, and every such chunk's parsable URLs all have a record. |
| Orchestrator.RunScraper | selenium_parser.py:568-631 | The de-duplicated list holds exactly the links that phase 1's searches returned, each once, and each search returns what the scrolling loop allows. The run fails exactly when the list is non-empty and the worker count is not positive. An empty list gives no records. Zero workers fails at the division and negative workers fail when the pool is created. Otherwise the run succeeds, each record is correctly parsed from a URL of a chunk whose session started, and every parsable URL of such a chunk has exactly one record. |

## Left out

- Browser control is not modelled: driver setup, stealth script, user-agent and window randomisation, `random_sleep`, navigation, waits, zoom, scrolling stimuli, "Show phone" clicks and the scrollable-container search. The oracles stand in for what the page shows.
- `ThreadPoolExecutor`, `as_completed` and `tqdm` are not modelled as threads. The pool is a sequential loop that takes the chunks in an order it chooses freely.
- `save_to_excel` (pandas and Excel) and `interactive_cli` (console input) are I/O and are left out.
- Exception handling is modelled only where it decides an outcome. A page that fails to load gives no record. A scroll fault gives no links. A worker session that fails to start loses its chunk. Division by zero workers and the pool's refusal of a negative count are failures. A positive worker count always succeeds, possibly with no records, since the pool catches every worker's exception. Other exceptions, such as one aborting the phone, e-mail or website block half-way, are left out.
- Orchestrator.RunScraper: phase 1 opens its own browser session before its `try` block. If that session fails to start, the exception leaves `run_concurrent_scraper` and the run returns nothing. The model assumes that session starts, and always completes phase 1.
- Seqs.ListOfSet: Python's set iteration order is left open. The contract states only distinctness, the elements and the count.
- Seqs.Dedup: where the source builds a list from a set (phones, e-mails, suggestions), its order is arbitrary. The model fixes those lists to first-occurrence order, which is one order the source may produce. For the source itself, only the lists' distinctness and their element sets are promised. So the exact phone and e-mail sequences in `Details.ExtractDetails`, `Details.ParseCompanyPage` and every parsed record hold for that one order. The same goes for the e-mail fallback, which the model scans in link order where the source scans in set order.
- Text.Lower: `str.lower` is modelled for ASCII and the basic Cyrillic block (U+0400–U+042F) only.
- Text.Capitalize: `str.capitalize` is modelled with the same ASCII and basic Cyrillic case maps, one character for one. Python title-cases the first character over all of Unicode and can change the length (`'ß'.capitalize()` is `'Ss'`).
- Text.Digits: only ASCII `0`–`9` count as digits, where Python's `\D` and `isdigit` accept every Unicode digit.
- Discovery.CollectLinks: hrefs are taken as the strings the page reports. A missing href is the empty string, which the `firm` filter drops.
- Orchestrator.ChunkSize: a negative worker count still sizes chunks, as in the source, but the run fails before any chunk is processed.
- The site oracle is a function of its argument. The same search URL always shows the same batches and suggestion texts, every worker sees the same page for a URL, and a session starts or fails the same way for the same chunk. The live site can answer differently on a second visit; the model does not cover that.
- The e-mail fallback can return a denylisted host (`Websites.FallbackIgnoresDenylist`). This is recorded as behaviour, not claimed as a defect, since the source does not say whether the denylist should apply to it.
