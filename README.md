# Old Oak Town content discovery — a verified model

Old Oak Town is a local news service for Old Oak Common, Park Royal and the HS2 station area in
West London. A weekly digest is built from several sources:
- web searches made through a language model (three revisions of the discovery script);
- council and transport RSS feeds;
- the OPDC planning register.

Each revision of the discovery script sends its search findings to the model in batches of two.
It recovers a JSON object from each free-text reply by searching for braces and accumulates the
items that object holds. Then, in the two later revisions, it sorts the items into four fixed
category buckets, ranks each bucket by score and picks the top three stories. The RSS monitor and
the planning scraper filter, score and re-tag their own items with keyword rules. They also
reformat those items into the search-record shape the curation pass reads.

This project models that core in Dafny and proves what it promises:
- the order and count of search records;
- the waits between queries and batches;
- the shape of the substring handed to the JSON decoder;
- the all-or-nothing contribution of each batch;
- the accounting of the buckets;
- sortedness, permutation and stability of every ranking;
- the bounds of every rule-based score;
- the exact error paths (`KeyError`, `IndexError`, skipped feeds) the scripts run into.

Modules:
- `Wrappers`: Option and Result.
- `Text`: Python's `find`, `rfind`, `in`, ASCII `lower`, slicing with negative indices,
  `str.replace(p, '')` and integer formatting.
- `Seqs`: order-preserving maps and filtered maps.
- `Ranking`: Python's stable `sort(key=..., reverse=True)` as an insertion sort.
- `Extraction`: fence stripping, the guarded brace slice and the unguarded one.
- `Batching`: slices of two, and the pauses between batches.
- `Curation`: curated items, the four categories, bucketing, per-bucket sorting, the top three and
  the per-batch harvest.
- `Findings`: the search-record shape.
- One module per script: `PerplexityDiscovery`, `ImprovedDiscovery`, `FirstDiscovery`,
  `RssMonitor` and `PlanningScraper`.

Loops that append, extend or reassign keep their loops, as methods with invariants. Each such
method is proved equal to a specification function defined from the back. The facts the scripts
rely on are proved as lemmas about those functions.

Everything the scripts obtain from outside is a parameter:
- search calls, the Perplexity API and the curation model are functions indexed by the call's
  position (query index or batch index);
- `json.loads` is an uninterpreted decoder;
- `feedparser.parse` is a function from feed URL to outcome;
- the planning page fetch is a value;
- dates and ages are inputs.

Each `time.sleep` becomes an entry, in seconds, of a `sleeps` output.

Four facts about the code shape the model:
- **Unknown categories.** Only a *missing* category defaults to `community_stories`
  (content_discovery_perplexity.py:329, content_discovery_improved.py:193). An item whose
  category is present but unrecognised is dropped (lines 330-331 and 194-195).
- **`total_items`.** It counts every accumulated item, dropped ones included
  (content_discovery_perplexity.py:338). `Curation.BucketTotal` proves that the bucket lengths
  sum to at most `total_items`, with equality exactly when every category is recognised.
- **Scores.** Curated scores are neither clamped nor filled in. A missing score sorts as 0
  (content_discovery_perplexity.py:335), and a missing title or category stays missing.
- **`use_perplexity`.** It is hard-wired to `False` in the perplexity revision. The model takes it
  as a parameter so that both paths are covered.

## Model

| member | source | states |
|---|---|---|
| Text.Find | content_discovery_perplexity.py:298 | `find` gives -1 exactly when the character is absent, and otherwise the index of its first occurrence |
| Text.RFind | content_discovery_perplexity.py:299 | `rfind` gives -1 exactly when the character is absent, and otherwise the index of its last occurrence |
| Text.Lower | rss_monitor.py:65-67 | lowercasing keeps the length and maps each character independently |
| Text.Take | rss_monitor.py:88 | `s[:n]` is a prefix of at most n characters, and all of `s` when `s` is that short |
| Text.RemoveAllKeeps | content_discovery_perplexity.py:297 | removing a pattern that does not contain `c` neither adds nor removes any occurrence of `c` |
| Text.RemoveAllLeading | content_discovery_perplexity.py:297 | `replace(p, '')` on a text that starts with `p` is `replace(p, '')` on the rest of the text |
| Text.RemoveAllPassThrough | content_discovery_perplexity.py:297 | a prefix that lacks the pattern's first character passes through the replacement unchanged |
| Text.ConcatAppend | content_discovery_perplexity.py:206-209 | appending one more text block extends the concatenation by exactly that text |
| Seqs.FlatMapConcat | rss_monitor.py:93-95 | extending with each feed's items in turn gives the items of the first feeds followed by those of the rest |
| Seqs.FilterMapMembers | rss_monitor.py:168 | the appended outputs are exactly the images of the inputs that pass the test |
| Ranking.InsertPermutes | content_discovery_perplexity.py:335 | one insertion step adds exactly that element |
| Ranking.InsertBounded | content_discovery_perplexity.py:335 | an insertion step keeps every key below a common bound |
| Ranking.SortedCons | content_discovery_perplexity.py:335 | an element that bounds a sorted list keeps it sorted when put in front |
| Ranking.InsertSorted | content_discovery_perplexity.py:335 | an insertion step keeps a list in non-increasing key order |
| Ranking.WithKeyCons | content_discovery_perplexity.py:335 | the elements with a given key, taken from a list with one element in front |
| Ranking.InsertWithKey | content_discovery_perplexity.py:335 | insertion never moves the new element past an element whose key equals its own |
| Ranking.SortDescSorted | content_discovery_perplexity.py:333-335 | the descending sort's result is in non-increasing key order |
| Ranking.SortDescPermutes | content_discovery_perplexity.py:333-335 | the descending sort's result is a permutation of its input |
| Ranking.SortDescStable | content_discovery_perplexity.py:333-335 | for every key, elements with that key keep their input order (Python's stable sort with `reverse=True`) |
| Ranking.PrefixDominates | content_discovery_perplexity.py:348 | no element after the first n of the sorted list has a higher key than any of the first n |
| Batching.Batches | content_discovery_perplexity.py:225-226 | there are ⌈n/2⌉ batches |
| Batching.BatchAt | content_discovery_perplexity.py:225-226 | batch j is the slice `[2j:2j+2]`, never empty and at most two long |
| Batching.BatchIndex | content_discovery_perplexity.py:225 | the cursor `i = 2j` is inside the list exactly while batch j exists |
| Batching.SliceBatch | content_discovery_perplexity.py:226 | slicing at cursor `2j` yields batch j |
| Batching.PausesAfterShape | content_discovery_perplexity.py:316-318 | the guarded pause gives one pause per batch except the last, all of the same length |
| Batching.PausesAfterStep | content_discovery_perplexity.py:316-318 | a finished batch adds a pause exactly when another batch follows it |
| Batching.BatchElement | content_discovery_perplexity.py:226 | element k of batch j is element 2j+k of the findings |
| Batching.BatchesPartition | content_discovery_perplexity.py:225-226 | the batches, concatenated in order, are exactly the findings, so each finding lies in exactly one batch |
| Extraction.BraceSlice | content_discovery_perplexity.py:298-302 | a slice, when one is taken, starts with `{`, ends with `}` and is at least two characters long |
| Extraction.BraceSliceSplits | content_discovery_perplexity.py:298-302 | the slice sits between a prefix holding no `{` and a suffix holding no `}` |
| Extraction.BraceSliceDecision | content_discovery_perplexity.py:301 | the guard `start >= 0 and end > start` holds exactly when some `{` precedes some `}` |
| Extraction.BraceSliceOfSplit | content_discovery_perplexity.py:298-302 | conversely, any such split of the text determines the slice that is taken |
| Extraction.FindIs | content_discovery_perplexity.py:298 | `find` returns the first position of the character, and no other |
| Extraction.RFindIs | content_discovery_perplexity.py:299 | `rfind` returns the last position of the character, and no other |
| Extraction.UnguardedSlice | content_discovery.py:89-91 | with no guard, the slice is the guarded one whenever that one exists; otherwise it is `"}"`, exactly when the text has no `{` and ends with `}` (a start of -1 means the last character), and `""` in every other case |
| Extraction.OpenThenCloseMeans | content_discovery_perplexity.py:301 | a recursive test for "some `{` before some `}`" agrees with its definition |
| Extraction.OpenThenCloseSkips | content_discovery_perplexity.py:301 | a prefix without `{` cannot change the test |
| Extraction.RemoveAllOpenThenClose | content_discovery_perplexity.py:297 | removing a brace-free pattern does not change whether a `{` precedes a `}` |
| Extraction.StripFencesKeepsDecision | content_discovery_perplexity.py:297-301 | fence stripping never changes whether a slice is taken |
| Extraction.RemoveAllAbsent | content_discovery_perplexity.py:297 | a text in which the pattern never occurs is left unchanged |
| Extraction.RemoveAllFree | content_discovery_perplexity.py:297 | a text without the pattern's first character is left unchanged |
| Extraction.ClosingFenceNotJson | content_discovery_perplexity.py:297 | a closing fence followed by a newline holds no "```json" |
| Extraction.StripOne | content_discovery_perplexity.py:297 | one occurrence of the pattern, after a prefix that cannot start one, is the only thing removed |
| Extraction.FirstPass | content_discovery_perplexity.py:297 | removing "```json" takes out the opening fence and leaves the closing one |
| Extraction.SecondPass | content_discovery_perplexity.py:297 | removing "```" then takes out the closing fence |
| Extraction.FencedReplyYieldsObject | content_discovery_perplexity.py:295-303 | a reply that wraps an object in a json code fence, with prose around it, hands exactly that object to the decoder |
| Curation.ParseCategory | content_discovery_perplexity.py:330 | `category in categories` holds exactly for the four key names, and the enum value found names the key |
| Curation.Buckets.Set | content_discovery_perplexity.py:331 | appending to one bucket leaves the other three unchanged |
| Curation.Buckets.ActiveCount | content_discovery_perplexity.py:339 | at most 4 active categories, and none exactly when every bucket is empty |
| Curation.CountsAreLengths | content_discovery_perplexity.py:360 | `by_category` has every category as a key, mapped to that bucket's length |
| Curation.Organize | content_discovery_perplexity.py:328-331 | after the loop, every bucket holds the items routed to it, in accumulation order |
| Curation.InBucketMembers | content_discovery_perplexity.py:328-331 | a bucket holds exactly the items whose category (missing meaning `community_stories`) names it |
| Curation.BucketsAccount | content_discovery_perplexity.py:328-331 | the four buckets and the dropped items account for every item exactly once |
| Curation.UnrecognisedEmpty | content_discovery_perplexity.py:328-331 | nothing is dropped exactly when every category is recognised |
| Curation.BucketTotal | content_discovery_perplexity.py:328-338 | the buckets hold at most `total_items` items, and exactly that many when every category is recognised |
| Curation.CategoryIndex | content_discovery_perplexity.py:334 | each category has a position in the dictionary's iteration order |
| Curation.SortEach | content_discovery_perplexity.py:334-335 | after the loop, every bucket is its own descending sort by score |
| Curation.SortedBucket | content_discovery_perplexity.py:333-335 | a sorted bucket is non-increasing by score (missing = 0), a permutation of its routed items, and stable among equal scores |
| Curation.TopItems | content_discovery_perplexity.py:348 | the top stories are min(3, total) items |
| Curation.TopItemsDominate | content_discovery_perplexity.py:348 | the top stories come from the accumulated items, and nothing left out scores higher than any of them |
| Curation.Harvest | content_discovery_perplexity.py:295-313 | a batch adds nothing when the call raises, when no slice is taken, or when decoding fails; otherwise it adds exactly the decoded `items` (default `[]`) |
| Findings.TextsCount | content_discovery_improved.py:88-97 | one text per text block |
| PerplexityDiscovery.SearchWithClaude | content_discovery_perplexity.py:206-215 | the content is the concatenation of the text blocks in order, with no citations and source "claude" |
| PerplexityDiscovery.ClaudeOnce | content_discovery_perplexity.py:68-71 | a Claude search gives its results, or the message it raised |
| PerplexityDiscovery.RunSearches | content_discovery_perplexity.py:55-99 | one record per query, in query order, each the record of that query's search; n-1 waits, each 15 s with Perplexity or 20 s without |
| PerplexityDiscovery.RecordShape | content_discovery_perplexity.py:74-93 | every record carries its query, category and focus; a failed search gives `[]`, count 0 and the error, a successful one count 1 and no error |
| PerplexityDiscovery.FallbackOnlyOnPerplexityFailure | content_discovery_perplexity.py:60-72 | Claude is consulted only when Perplexity raises; a record has an error exactly when both providers raised |
| PerplexityDiscovery.Contexts | content_discovery_perplexity.py:231-244 | one context per record of the batch, in order |
| PerplexityDiscovery.BatchContexts | content_discovery_perplexity.py:231-244 | the context loop builds those contexts |
| PerplexityDiscovery.CollectedFromBatches | content_discovery_perplexity.py:225-313 | every accumulated item comes from the harvest of some batch |
| PerplexityDiscovery.CollectedAllFailed | content_discovery_perplexity.py:313-318 | when every curation call raises, nothing is accumulated |
| PerplexityDiscovery.CollectedStep | content_discovery_perplexity.py:305 | one more batch extends the accumulator by exactly its harvest |
| PerplexityDiscovery.TitlesOrEmpty | content_discovery_perplexity.py:355 | one title per top story, with "" for a missing title |
| PerplexityDiscovery.SortedBucketsGet | content_discovery_perplexity.py:333-335 | each digest bucket is the sorted list of the items routed to it |
| PerplexityDiscovery.SortedBucketsAre | content_discovery_perplexity.py:320-335 | buckets holding each category's sorted items are the digest's buckets |
| PerplexityDiscovery.SortedBucketsSize | content_discovery_perplexity.py:328-338 | the sorted buckets hold at most `total_items` items, and all of them exactly when every category is recognised |
| PerplexityDiscovery.DigestFacts | content_discovery_perplexity.py:320-363 | the digest's buckets are sorted, stable permutations of the recognised items; `by_category` gives their lengths; `total_items` counts all items; `top_stories` are the titles of the first min(3, total) items of the overall sort |
| PerplexityDiscovery.CurateBatch | content_discovery_perplexity.py:231-313 | a batch's contribution is the harvest of the model's reply to its contexts, after fence stripping |
| PerplexityDiscovery.NextBatch | content_discovery_perplexity.py:225-313 | one loop iteration extends the accumulator from batches `..j` to batches `..j+1` |
| PerplexityDiscovery.CollectBatches | content_discovery_perplexity.py:222-318 | the accumulator is the batches' harvests in batch order; ⌈n/2⌉-1 pauses of 3 s |
| PerplexityDiscovery.Summarise | content_discovery_perplexity.py:320-363 | bucketing, sorting and the statistics compute the assembled digest |
| PerplexityDiscovery.CurateWithClaude | content_discovery_perplexity.py:218-363 | `curate_with_claude` is the digest of the batches' harvests, with one 3 s pause between consecutive batches |
| PerplexityDiscovery.SleepPlan | content_discovery_perplexity.py:96-105 | with the four fixed queries the waits are w, w, w, 10, 3 |
| PerplexityDiscovery.DiscoverContent | content_discovery_perplexity.py:55-109 | the four query records in order, their curated digest, and waits w, w, w, 10 s, 3 s |
| ImprovedDiscovery.Analyses | content_discovery_improved.py:88-97 | finding k is text k tagged "analysis" |
| ImprovedDiscovery.ExtractSearchResults | content_discovery_improved.py:83-97 | one "analysis" finding per text block in block order, as many as there are text blocks |
| ImprovedDiscovery.Records | content_discovery_improved.py:25-64 | one record per query, in order |
| ImprovedDiscovery.RunSearches | content_discovery_improved.py:25-69 | the loop yields those records, with n-1 waits of 20 s |
| ImprovedDiscovery.RecordCount | content_discovery_improved.py:50-64 | a successful record counts its text blocks and has no error; a failed one, whatever its message, has no `result_count` |
| ImprovedDiscovery.TotalResultsFails | content_discovery_improved.py:71 | the sum raises exactly when some record lacks `result_count` |
| ImprovedDiscovery.TotalResultsMessage | content_discovery_improved.py:71 | the only error raised is `KeyError: 'result_count'` |
| ImprovedDiscovery.TotalCountsFindings | content_discovery_improved.py:71 | when every record counts its findings, the total is the number of findings |
| ImprovedDiscovery.FailedSearchAborts | content_discovery_improved.py:58-71 | any failed search makes line 71 raise `KeyError: 'result_count'` |
| ImprovedDiscovery.CorrectedRecords | content_discovery_improved.py:58-64 | the corrected records, one per query, give a failed search the count 0 |
| ImprovedDiscovery.CorrectedTotal | content_discovery_improved.py:58-71 | with that correction the total is always computed and every batch is curated; the only error left is the `KeyError: 'title'` of line 203 |
| ImprovedDiscovery.CorrectedDiscoverContent | content_discovery_improved.py:7-75 | with failed searches counting 0, the total is the number of findings and every batch is curated |
| ImprovedDiscovery.KeyFinding | content_discovery_improved.py:118-121 | the key-finding line is missing exactly when there are no findings |
| ImprovedDiscovery.KeyFindingQuotes | content_discovery_improved.py:118-121 | the line quotes a prefix of at most 500 characters of the first finding, all of it when it is that short |
| ImprovedDiscovery.BatchSummariesMeans | content_discovery_improved.py:113-123 | a batch is summarised exactly when all its records carry a count, with one summary per record |
| ImprovedDiscovery.SummaryText | content_discovery_improved.py:115-121 | the `+=` steps build the summary of one record |
| ImprovedDiscovery.SummariseBatch | content_discovery_improved.py:113-123 | the loop's summaries, or the `KeyError` of line 116 |
| ImprovedDiscovery.BatchSummariesPrefixFails | content_discovery_improved.py:113-123 | once a record lacks a count, the whole batch fails |
| ImprovedDiscovery.BatchSummariesMessage | content_discovery_improved.py:116 | the only message is `KeyError: 'result_count'` |
| ImprovedDiscovery.CountedCurates | content_discovery_improved.py:107-182 | records that all carry a count are always curated, whatever the model replies |
| ImprovedDiscovery.CountedBatchesCurate | content_discovery_improved.py:107-182 | batches whose records all carry a count are always curated |
| ImprovedDiscovery.Titles | content_discovery_improved.py:203 | titles are produced exactly when every top item has one, and they are those titles in order; otherwise the error is `KeyError: 'title'` |
| ImprovedDiscovery.SortedBucketsGet | content_discovery_improved.py:197-199 | each digest bucket is the sorted list of the items routed to it |
| ImprovedDiscovery.SortedBucketsAre | content_discovery_improved.py:184-199 | buckets holding each category's sorted items are the digest's buckets |
| ImprovedDiscovery.DigestFacts | content_discovery_improved.py:184-210 | the digest exists exactly when the top three all have titles; its buckets are then sorted, stable permutations of the recognised items, and `total_items` counts every item |
| ImprovedDiscovery.CurateBatch | content_discovery_improved.py:113-178 | a batch's contribution is the harvest of the reply to its summaries, without fence stripping, or the `KeyError` |
| ImprovedDiscovery.CollectedSmartStep | content_discovery_improved.py:107-175 | one more batch either fails or extends the accumulator by its harvest |
| ImprovedDiscovery.CollectedSmartPrefixFails | content_discovery_improved.py:107-182 | a failure in some batch is the failure of the whole loop |
| ImprovedDiscovery.CollectedSmartMessage | content_discovery_improved.py:116 | the only error curation raises is the missing count |
| ImprovedDiscovery.CollectBatches | content_discovery_improved.py:104-182 | the accumulator is the batches' harvests in order, or the `KeyError`; on success, ⌈n/2⌉-1 pauses of 5 s |
| ImprovedDiscovery.Summarise | content_discovery_improved.py:184-210 | bucketing, sorting, the summary line and the titles compute the assembled digest or its `KeyError` |
| ImprovedDiscovery.CurateResultsSmart | content_discovery_improved.py:100-210 | `curate_results_smart` returns the digest of the harvests or raises; every pause is 5 s, and when every batch is curated there are ⌈n/2⌉-1 of them |
| ImprovedDiscovery.SearchWaits | content_discovery_improved.py:66-69 | with the four fixed queries the search loop waits 20 s three times |
| ImprovedDiscovery.SleepPlan | content_discovery_improved.py:66-69 | with the four fixed queries and two curation batches the waits are 20, 20, 20, 5 s |
| ImprovedDiscovery.DiscoverContent | content_discovery_improved.py:7-75 | the four records; a failed search stops the run at line 71 after waits 20, 20, 20 s; otherwise the curated digest, after waits 20, 20, 20, 5 s |
| FirstDiscovery.RawResultsMeans | content_discovery.py:22-41 | the loop completes exactly when no search raised, with one result per query in order; otherwise it stops with the first exception |
| FirstDiscovery.RunSearches | content_discovery.py:22-41 | the loop computes those results, or the exception |
| FirstDiscovery.RawResultsAbort | content_discovery.py:22-41 | once a search has raised, later queries cannot change the outcome |
| FirstDiscovery.PromptQueries | content_discovery.py:57-68 | the prompt names the first query and the second (or 'N/A'); with no results, `[0]` raises |
| FirstDiscovery.PromptUsesFirstTwo | content_discovery.py:57-68 | the responses, and every result after the second, have no influence on the prompt |
| FirstDiscovery.CurateResults | content_discovery.py:53-99 | with no results `[0]` raises `IndexError`; a raising model call escapes, since it lies outside the `try`; otherwise the decoded document is returned unchanged, or the fallback when decoding fails |
| FirstDiscovery.AgreesWithGuarded | content_discovery.py:88-92 | wherever the guarded revisions would decode, this one decodes the same substring |
| FirstDiscovery.NoObjectFallsBack | content_discovery.py:88-99 | with no `{` before a `}`, a decoder that rejects `""` and `"}"` gives the fallback |
| FirstDiscovery.FallbackShape | content_discovery.py:93-99 | the fallback has a single `development_news` bucket holding the one "Error parsing results" item |
| FirstDiscovery.DiscoverContent | content_discovery.py:6-51 | the first exception of a search, or the curation of all the results |
| RssMonitor.EntryStampCases | rss_monitor.py:77-78 | the date falls back to `updated_parsed` only when the `published_parsed` key is absent; a key holding `None` drops the entry |
| RssMonitor.ItemOf | rss_monitor.py:83-91 | a kept record carries the feed's name and category and a summary prefix of at most 300 characters |
| RssMonitor.Kept | rss_monitor.py:64-91 | no more records than entries |
| RssMonitor.KeptMeans | rss_monitor.py:64-91 | a record is kept exactly when its entry mentions an area keyword, is dated and is at most 30 days old |
| RssMonitor.Examined | rss_monitor.py:64 | at most the first 20 entries are examined |
| RssMonitor.ScanEntries | rss_monitor.py:64-91 | the entry loop keeps the records of the relevant entries among the first 20, in order |
| RssMonitor.FetchRssFeeds | rss_monitor.py:48-103 | the items of every feed, concatenated in feed order, and one 1 s pause per feed that was not bozo |
| RssMonitor.FeedStep | rss_monitor.py:57-103 | one more feed adds its items and, unless bozo, its pause |
| RssMonitor.AllItemsConcat | rss_monitor.py:93-95 | items of consecutive runs of feeds concatenate |
| RssMonitor.AllItemsSnoc | rss_monitor.py:93-95 | the last feed's items come last |
| RssMonitor.AllItemsFrom | rss_monitor.py:48-95 | every item comes from a feed that parsed, with that feed's name and category, and holds at most 300 characters of summary |
| RssMonitor.PausesCount | rss_monitor.py:57-103 | at most one pause per feed, and exactly one when no feed is bozo |
| RssMonitor.ChosenCategory | rss_monitor.py:126-141 | the chosen category is one of the three recategorisation targets, or the item's own |
| RssMonitor.ChooseCategory | rss_monitor.py:126-141 | the three overrides, applied in source order, give planning priority over community, and community over business |
| RssMonitor.AddBonuses | rss_monitor.py:143-163 | the step-by-step additions give the base score plus every applicable bonus |
| RssMonitor.RssScore | rss_monitor.py:143-165 | the capped score lies between 5 and 10; it is the raw score whenever that score is at most 10, and 10 otherwise |
| RssMonitor.ScoreItem | rss_monitor.py:120-166 | one iteration gives the chosen category and the item with its score and relevance set |
| RssMonitor.ScoredUpTo | rss_monitor.py:165-166 | after n iterations, the first n items are scored and the rest untouched |
| RssMonitor.ScoredStep | rss_monitor.py:165-166 | one iteration scores exactly one more item |
| RssMonitor.CategorizeRssItems | rss_monitor.py:110-174 | every item is scored, and each sorted bucket holds the scored items routed to it; an unknown chosen category raises `KeyError` after scoring that item |
| RssMonitor.RoutedStep | rss_monitor.py:168 | appending a scored item to its bucket extends the routing by that item |
| RssMonitor.RoutedAt | rss_monitor.py:168 | routing the first i+1 items is routing the first i, then item i |
| RssMonitor.RoutedSnoc | rss_monitor.py:168 | the last item is routed last |
| RssMonitor.AllKnownStep | rss_monitor.py:168 | a known item keeps the prefix known |
| RssMonitor.RoutedAccount | rss_monitor.py:120-168 | each item is appended to exactly one bucket |
| RssMonitor.RoutedMembers | rss_monitor.py:168 | bucket c holds exactly the scored forms of the items routed to c |
| RssMonitor.RssBucketSorted | rss_monitor.py:170-172 | each bucket is sorted by score, is a permutation of its routed items, is stable, and holds scores only between 5 and 10 |
| RssMonitor.FetchedItemsKnown | rss_monitor.py:10-42 | items from the configured feeds always have a known bucket, so the `KeyError` cannot occur for them |
| RssMonitor.FeedCategoriesKnown | rss_monitor.py:10-42 | every configured feed's category is a key |
| RssMonitor.ChosenKnown | rss_monitor.py:126-141 | recategorisation keeps a known category known |
| RssMonitor.FresherScoresNoLower | rss_monitor.py:147-150 | a fresher item never scores lower than an otherwise identical older one |
| RssMonitor.FormatRssForCuration | rss_monitor.py:177-195 | one record per item |
| RssMonitor.FormatRssFacts | rss_monitor.py:177-195 | formatting distributes over concatenation; each record's query is "RSS: " followed by the source, its only citation the URL, its source "rss" and its count 1 |
| PlanningScraper.ScrapeEaling | planning_scraper.py:6-41 | the Ealing placeholder finds nothing |
| PlanningScraper.OpdcApps | planning_scraper.py:71-84 | no more applications than links |
| PlanningScraper.FirstLinks | planning_scraper.py:71 | at most the first ten links |
| PlanningScraper.ScrapeOpdc | planning_scraper.py:44-97 | the kept links among the first ten when the status is 200; nothing on another status or an exception; at most ten |
| PlanningScraper.OpdcAppsMeans | planning_scraper.py:71-84 | an application is kept exactly when its link's title is relevant; each has score 7, category `planning_policy`, and its URL is the register's address followed by the href |
| PlanningScraper.BoostedScore | planning_scraper.py:128 | the boosted score never exceeds 10 and never falls below the old score (5 when missing), unless that score was already above 10; below the cap it is the old score plus 2 |
| PlanningScraper.BusinessApps | planning_scraper.py:123-131 | no more kept applications than inputs |
| PlanningScraper.FilterBusiness | planning_scraper.py:123-131 | the loop keeps and updates the business applications in order |
| PlanningScraper.CheckBusinessPlanningApplications | planning_scraper.py:100-135 | the OPDC applications followed by the Ealing ones, filtered; at most ten |
| PlanningScraper.BusinessAppsMeans | planning_scraper.py:123-131 | an application is kept exactly when it is business-related; a kept one is re-tagged `business_spotlights`, with a score of at most 10 |
| PlanningScraper.BusinessAppsConcat | planning_scraper.py:114-131 | the filter keeps OPDC applications before Ealing ones |
| PlanningScraper.OpdcBusinessScore | planning_scraper.py:83-128 | an OPDC application kept by the business filter scores 9 |
| PlanningScraper.FormatPlanningForCuration | planning_scraper.py:138-156 | one record per application |
| PlanningScraper.FormatPlanningFacts | planning_scraper.py:138-156 | formatting distributes over concatenation; each record's query is "Planning: " followed by the source, its only citation the URL, its source "planning" and its count 1 |

## Left out

- The network and models are not modelled. These are `client.messages.create`, `requests.post`, `requests.get`, `feedparser.parse` and BeautifulSoup. Each is a parameter that stands for its outcome: text blocks, a reply text, a feed outcome, links, or the message of the exception raised.
- `search_with_perplexity` has its HTTP payload, headers and error-message formatting left out. Its outcome is the `PerplexityCall` parameter: content and citations, or an exception.
- `json.loads` is an uninterpreted decoder. A JSON value that is not an object fails at `.get`, inside the batch's `except Exception`. That failure is folded into `Malformed`, because it likewise adds nothing.
- Curation.Harvest: an `items` value that is not a list is modelled as a list of items. Python's `extend` of a string or dictionary is not modelled.
- `datetime.now`, `strftime` and the age computation are inputs: a `Stamp` with the date text and the age in days, and `today` for the planning scraper.
- `time.sleep` is recorded as seconds in the `sleeps` outputs, not as elapsed time.
- The `average_score` float division and its formatting are left out. `PerplexityDiscovery.Stats` keeps the integer sum and count it is computed from.
- PerplexityDiscovery.WeekSummary: omits the average-score sentence for the same reason.
- `save_results`, `create_html_review`, every `print` and the `__main__` blocks are left out. They are file output and logging.
- `lower()` is ASCII-only.
- `use_perplexity` is a parameter instead of the hard-wired `False`.
- The perplexity revision's `result_count` is always 1 for a successful search. Its results are a dictionary, never a list.
- RssMonitor.CategorizeRssItems: it returns the scored items instead of mutating the caller's dictionaries. The fact that a bucket and the input list share the same dictionary objects is not modelled. An item's own `category` key stays unchanged, as in the source.
- RssMonitor.RssItem always carries a category, so the `development_news` default of `item.get('category', ...)` is not modelled. Items built by `fetch_rss_feeds` always have the key.
- RssMonitor.FeedOutcome: `FeedRaised` stands for an exception anywhere in a feed's `try` block, including the entry loop. In every case the feed's items are discarded and the pause still follows.
- PlanningScraper.CheckBusinessPlanningApplications: the updated applications are returned values. The dictionaries shared with the scrapers' lists are not mutated.
- ImprovedDiscovery.CollectBatches: the number of pauses is stated only when every batch is curated. On the `KeyError` path only the length of each pause is stated.
- ImprovedDiscovery.CurateResultsSmart: like `CollectBatches`, it states the number of pauses only when every batch is curated. Its only errors are the two `KeyError`s; the raises listed under `Curation.Item` are not modelled.
- Curation.Item: a curated item is assumed to be a JSON object with a string title, a string category and an integer score. Items that break this raise outside every `try`, and those raises are not modelled. These are the `AttributeError` of a non-object item (content_discovery_perplexity.py:329, content_discovery_improved.py:193), the `TypeError` of an unhashable category (lines 330 and 194), and the `TypeError` of scores that cannot be compared or added (lines 335, 344 and 348; lines 199 and 203). Float scores are not represented either.
- PerplexityDiscovery.CurateWithClaude: it returns a digest for every reply. The raises listed under `Curation.Item` would escape `curate_with_claude` and are not modelled.
- FirstDiscovery.CurateResults: the reply's content is a parameter. An empty `response.content` raising at line 85 counts as a failed call, and the same holds in the other two revisions.

## Findings

| source | as written | input that shows it | evidently intended | confidence | as-written member | corrected member |
|---|---|---|---|---|---|---|
| content_discovery_improved.py:58-71 | a failed search appends a record without `result_count`, so the sum at line 71 raises `KeyError` and the run stops before curation | any run in which one of the four searches raises | count a failed search as 0 results, as the perplexity revision does, and go on to curate | not executed | ImprovedDiscovery.FailedSearchAborts | ImprovedDiscovery.CorrectedTotal |
