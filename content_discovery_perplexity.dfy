/** The perplexity revision of the discovery script: a fixed list of four queries searched one
    after another (through Perplexity with a Claude fallback, or through Claude alone), failures
    absorbed into the record of their query, then curation in batches of two with fence stripping,
    bucketing, sorting, the top three and summary statistics. */
module PerplexityDiscovery {
  import opened Wrappers
  import opened Text
  import opened Ranking
  import opened Extraction
  import opened Batching
  import opened Findings
  import opened Curation

  /** `{"query", "category", "focus"}` of one planned search. */
  datatype Query = Query(text: string, category: string, focus: string)

  const SearchQueries: seq<Query> := [
    Query("Old Oak Common HS2 station construction news updates 2025", "development_news",
          "HS2 station progress, construction milestones, delays, opening dates"),
    Query("Park Royal OPDC regeneration development London 2025", "development_news",
          "OPDC projects, Park Royal redevelopment, housing developments"),
    Query("Old Oak Common local business openings new shops restaurants", "business_spotlights",
          "New businesses, closures, local business news"),
    Query("Old Oak Common OPDC planning applications consultations", "planning_policy",
          "Planning applications, public consultations, policy changes")
  ]

  /** What the Perplexity API call gave back for one query, or the message it raised. */
  datatype PerplexityCall = PerplexityAnswer(content: string, citations: seq<string>)
                          | PerplexityRaised(message: string)

  /** Seconds waited between two queries. */
  function QueryWait(usePerplexity: bool): nat { if usePerplexity then 15 else 20 }

  const CurationWait: nat := 10
  const BatchPause: nat := 3

  /** `search_with_claude`: the text of every text block, concatenated in block order. */
  method SearchWithClaude(blocks: seq<Block>) returns (r: SearchResults)
    ensures r == SearchResults(Concat(Texts(blocks)), [], "claude")
  {
    var content := "";
    var i := 0;
    while i < |blocks|
      invariant 0 <= i <= |blocks|
      invariant content == Concat(Texts(blocks[..i]))
    {
      assert blocks[..i + 1][..i] == blocks[..i];
      match blocks[i] {
        case TextBlock(t) =>
          assert Texts(blocks[..i + 1]) == Texts(blocks[..i]) + [t];
          ConcatAppend(Texts(blocks[..i]), t);
          content := content + t;
        case OtherBlock =>
          assert Texts(blocks[..i + 1]) == Texts(blocks[..i]) + [];
          assert Texts(blocks[..i]) + [] == Texts(blocks[..i]);
      }
      i := i + 1;
    }
    assert blocks[..i] == blocks;
    r := SearchResults(content, [], "claude");
  }

  /** The results gained from one Claude search call, or the message it raised. */
  function FromClaude(call: SearchCall): Result<SearchResults> {
    match call
    case Answered(blocks) => Success(SearchResults(Concat(Texts(blocks)), [], "claude"))
    case SearchRaised(m) => Failure(m)
  }

  /** The search step of the query loop's `try` block: Perplexity first when enabled, Claude when
      Perplexity raises, Claude alone otherwise. */
  function Search(i: nat, q: Query, usePerplexity: bool,
                  perplexity: (nat, Query) -> PerplexityCall,
                  claude: (nat, Query) -> SearchCall): Result<SearchResults>
  {
    if usePerplexity then
      match perplexity(i, q)
      case PerplexityAnswer(content, citations) => Success(SearchResults(content, citations, "perplexity"))
      case PerplexityRaised(_) => FromClaude(claude(i, q))
    else FromClaude(claude(i, q))
  }

  /** The record appended for query `i`: its results with count 1, or `[]`, count 0 and the
      error message when the search raised. */
  function RecordFor(i: nat, q: Query, usePerplexity: bool,
                     perplexity: (nat, Query) -> PerplexityCall,
                     claude: (nat, Query) -> SearchCall): SearchRecord
  {
    match Search(i, q, usePerplexity, perplexity, claude)
    case Success(res) => SearchRecord(q.text, q.category, q.focus, Found(res), 1, None)
    case Failure(e) => SearchRecord(q.text, q.category, q.focus, NoResults, 0, Some(e))
  }

  /** Lines 55-99 of `discover_content`: one record per query, in query order, failures absorbed,
      and a wait after every query but the last. */
  method RunSearches(queries: seq<Query>, usePerplexity: bool,
                     perplexity: (nat, Query) -> PerplexityCall,
                     claude: (nat, Query) -> SearchCall)
    returns (records: seq<SearchRecord>, sleeps: seq<nat>)
    ensures |records| == |queries|
    ensures forall i | 0 <= i < |queries| :: records[i] == RecordFor(i, queries[i], usePerplexity, perplexity, claude)
    ensures |sleeps| == if queries == [] then 0 else |queries| - 1
    ensures forall k | 0 <= k < |sleeps| :: sleeps[k] == QueryWait(usePerplexity)
  {
    records, sleeps := [], [];
    var i := 0;
    while i < |queries|
      invariant 0 <= i <= |queries|
      invariant |records| == i
      invariant forall j | 0 <= j < i :: records[j] == RecordFor(j, queries[j], usePerplexity, perplexity, claude)
      invariant |sleeps| == if i == 0 then 0 else if i < |queries| then i else i - 1
      invariant forall k | 0 <= k < |sleeps| :: sleeps[k] == QueryWait(usePerplexity)
    {
      var q := queries[i];
      var outcome: Result<SearchResults>;
      if usePerplexity {
        match perplexity(i, q)
        case PerplexityAnswer(content, citations) =>
          outcome := Success(SearchResults(content, citations, "perplexity"));
        case PerplexityRaised(_) =>
          outcome := ClaudeOnce(claude(i, q));
      } else {
        outcome := ClaudeOnce(claude(i, q));
      }
      match outcome {
        case Success(res) =>
          records := records + [SearchRecord(q.text, q.category, q.focus, Found(res), 1, None)];
        case Failure(e) =>
          records := records + [SearchRecord(q.text, q.category, q.focus, NoResults, 0, Some(e))];
      }
      if i < |queries| - 1 {
        sleeps := sleeps + [QueryWait(usePerplexity)];
      }
      i := i + 1;
    }
  }

  /** A call to `search_with_claude` that may raise. */
  method ClaudeOnce(call: SearchCall) returns (r: Result<SearchResults>)
    ensures r == FromClaude(call)
  {
    match call
    case Answered(blocks) =>
      var res := SearchWithClaude(blocks);
      r := Success(res);
    case SearchRaised(m) =>
      r := Failure(m);
  }

  /** Every query leaves a record carrying its own query, category and focus; a raised search
      leaves `results: []`, `result_count: 0` and the message, a successful one count 1 and no
      error. */
  lemma RecordShape(i: nat, q: Query, usePerplexity: bool,
                    perplexity: (nat, Query) -> PerplexityCall,
                    claude: (nat, Query) -> SearchCall)
    ensures var r := RecordFor(i, q, usePerplexity, perplexity, claude);
      && r.query == q.text && r.category == q.category && r.focus == q.focus
      && (r.error.Some? <==> Search(i, q, usePerplexity, perplexity, claude).Failure?)
      && (r.error.Some? ==> r.results == NoResults && r.resultCount == 0)
      && (r.error.None? ==> r.results.Found? && r.resultCount == 1)
  {
  }

  /** Claude is consulted only when Perplexity is disabled or raised: a Perplexity answer makes
      the record independent of the Claude side, and a failure then means both providers raised. */
  lemma FallbackOnlyOnPerplexityFailure(i: nat, q: Query,
                                        perplexity: (nat, Query) -> PerplexityCall,
                                        claude: (nat, Query) -> SearchCall,
                                        other: (nat, Query) -> SearchCall)
    ensures perplexity(i, q).PerplexityAnswer? ==>
      RecordFor(i, q, true, perplexity, claude) == RecordFor(i, q, true, perplexity, other)
      && RecordFor(i, q, true, perplexity, claude).results.found.source == "perplexity"
    ensures RecordFor(i, q, true, perplexity, claude).error.Some? <==>
      perplexity(i, q).PerplexityRaised? && claude(i, q).SearchRaised?
  {
  }

  /** The `FINDINGS` text of one record: its content, or `str([])` after a failure. */
  function FindingsText(r: SearchRecord): string {
    match r.results
    case Found(res) => res.content
    case NoResults => "[]"
  }

  function CitationCount(r: SearchRecord): nat {
    match r.results
    case Found(res) => |res.citations|
    case NoResults => 0
  }

  /** The context block built for one record of a batch. */
  function Context(r: SearchRecord): string {
    "\nQUERY: " + r.query + "\nCATEGORY: " + r.category + "\nFOCUS: " + r.focus
    + "\n\nFINDINGS:\n" + FindingsText(r) + "\n\nCITATIONS: " + NatToString(CitationCount(r))
    + " sources\n---\n"
  }

  /** The items the batches add, batch after batch; batch `j` is curated from its records'
      contexts. */
  function Collected(bs: seq<seq<SearchRecord>>, curator: (nat, seq<string>) -> Reply,
                     decode: string -> Decoded): seq<Item>
  {
    if bs == [] then []
    else
      var j := |bs| - 1;
      Collected(bs[..j], curator, decode)
      + Harvest(curator(j, Contexts(bs[j])), true, decode)
  }

  /** The context of every record of a batch, in order. */
  function Contexts(batch: seq<SearchRecord>): (r: seq<string>)
    ensures |r| == |batch|
    ensures forall k | 0 <= k < |batch| :: r[k] == Context(batch[k])
  {
    if batch == [] then [] else Contexts(batch[..|batch| - 1]) + [Context(batch[|batch| - 1])]
  }

  /** Batches run in order and each one contributes only its own harvest: every accumulated item
      comes from the harvest of some batch. */
  lemma {:induction false} CollectedFromBatches(bs: seq<seq<SearchRecord>>, curator: (nat, seq<string>) -> Reply,
                                                decode: string -> Decoded, x: Item)
    requires x in Collected(bs, curator, decode)
    ensures exists j :: 0 <= j < |bs| && x in Harvest(curator(j, Contexts(bs[j])), true, decode)
  {
    var j := |bs| - 1;
    if x !in Harvest(curator(j, Contexts(bs[j])), true, decode) {
      CollectedFromBatches(bs[..j], curator, decode, x);
      var m :| 0 <= m < j && x in Harvest(curator(m, Contexts(bs[..j][m])), true, decode);
      assert bs[..j][m] == bs[m];
    }
  }

  /** When every curation call raises, nothing is accumulated, yet every batch was attempted. */
  lemma {:induction false} CollectedAllFailed(bs: seq<seq<SearchRecord>>, curator: (nat, seq<string>) -> Reply,
                                              decode: string -> Decoded)
    requires forall j | 0 <= j < |bs| :: curator(j, Contexts(bs[j])).CallFailed?
    ensures Collected(bs, curator, decode) == []
  {
    if bs != [] {
      var j := |bs| - 1;
      forall m | 0 <= m < j ensures curator(m, Contexts(bs[..j][m])).CallFailed? {
        assert bs[..j][m] == bs[m];
      }
      CollectedAllFailed(bs[..j], curator, decode);
    }
  }

  /** The statistics of the digest (the average itself is a float and is left out; its inputs
      are kept). */
  datatype Stats = Stats(totalItems: nat, byCategory: map<Category, nat>, scoreSum: int)

  datatype Digest = Digest(
    categories: Buckets<Item>,
    weekSummary: string,
    topStories: seq<string>,
    topStoriesFull: seq<Item>,
    totalItems: nat,
    stats: Stats)

  function WeekSummary(total: nat, active: nat): string {
    "This week's content discovery found " + NatToString(total) + " newsworthy stories across "
    + NatToString(active) + " categories. "
  }

  /** `[s.get('title', '') for s in top_stories]`. */
  function TitlesOrEmpty(items: seq<Item>): (r: seq<string>)
    ensures |r| == |items|
    ensures forall k | 0 <= k < |items| :: r[k] == items[k].title.GetOr("")
  {
    seq(|items|, k requires 0 <= k < |items| => items[k].title.GetOr(""))
  }

  /** The four buckets, each sorted by score, best first. */
  function SortedBuckets(items: seq<Item>): Buckets<Item> {
    Buckets(SortDesc(InBucket(items, DevelopmentNews), Score),
            SortDesc(InBucket(items, BusinessSpotlights), Score),
            SortDesc(InBucket(items, CommunityStories), Score),
            SortDesc(InBucket(items, PlanningPolicy), Score))
  }

  lemma SortedBucketsGet(items: seq<Item>, c: Category)
    ensures SortedBuckets(items).Get(c) == SortDesc(InBucket(items, c), Score)
  {
    match c
    case DevelopmentNews =>
    case BusinessSpotlights =>
    case CommunityStories =>
    case PlanningPolicy =>
  }

  /** Lines 320-363: the digest assembled from the accumulated items. */
  function Assemble(items: seq<Item>): Digest {
    var b := SortedBuckets(items);
    Digest(b, WeekSummary(|items|, b.ActiveCount()), TitlesOrEmpty(TopItems(items)), TopItems(items),
           |items|, Stats(|items|, b.Counts(), ScoreSum(items)))
  }

  /** What the digest promises: its buckets are sorted, stable permutations of the recognised
      items; they hold at most `total_items` items, all of them exactly when every category is
      recognised; `by_category` gives each bucket's length; `top_stories` are the titles of the
      first min(3, total) items of the overall sort, a missing title giving "". */
  lemma DigestFacts(items: seq<Item>, c: Category, k: int)
    ensures var d := Assemble(items);
      && d.totalItems == |items| && d.stats.totalItems == |items|
      && SortedDesc(d.categories.Get(c), Score)
      && multiset(d.categories.Get(c)) == multiset(InBucket(items, c))
      && WithKey(d.categories.Get(c), Score, k) == WithKey(InBucket(items, c), Score, k)
      && d.categories.Size() <= |items|
      && (d.categories.Size() == |items| <==> forall x :: x in items ==> BucketOf(x).Some?)
      && c in d.stats.byCategory && d.stats.byCategory[c] == |d.categories.Get(c)|
      && |d.topStories| == (if |items| < 3 then |items| else 3)
      && (forall i | 0 <= i < |d.topStories| :: d.topStories[i] == d.topStoriesFull[i].title.GetOr(""))
      && d.topStoriesFull == SortDesc(items, Score)[..|d.topStories|]
  {
    var b := SortedBuckets(items);
    SortedBucketsGet(items, c);
    SortedBucket(items, c, k);
    CountsAreLengths(b, c);
    SortedBucketsSize(items);
  }

  /** Sorting the buckets keeps their sizes, so the accounting of `BucketTotal` carries over. */
  lemma SortedBucketsSize(items: seq<Item>)
    ensures SortedBuckets(items).Size() <= |items|
    ensures SortedBuckets(items).Size() == |items| <==> forall x :: x in items ==> BucketOf(x).Some?
  {
    var b := Buckets(InBucket(items, DevelopmentNews), InBucket(items, BusinessSpotlights),
                     InBucket(items, CommunityStories), InBucket(items, PlanningPolicy));
    forall c ensures b.Get(c) == InBucket(items, c) {
      match c
      case DevelopmentNews =>
      case BusinessSpotlights =>
      case CommunityStories =>
      case PlanningPolicy =>
    }
    BucketTotal(items, b);
  }

  /** The search context list for one batch (lines 231-244). */
  method BatchContexts(batch: seq<SearchRecord>) returns (contexts: seq<string>)
    ensures contexts == Contexts(batch)
  {
    contexts := [];
    var k := 0;
    while k < |batch|
      invariant 0 <= k <= |batch| && |contexts| == k
      invariant contexts == Contexts(batch[..k])
    {
      assert batch[..k + 1][..k] == batch[..k];
      contexts := contexts + [Context(batch[k])];
      k := k + 1;
    }
    assert batch[..k] == batch;
  }

  /** One more batch extends the accumulated items by that batch's harvest. */
  lemma CollectedStep(bs: seq<seq<SearchRecord>>, j: nat, curator: (nat, seq<string>) -> Reply,
                      decode: string -> Decoded)
    requires j < |bs|
    ensures Collected(bs[..j + 1], curator, decode)
         == Collected(bs[..j], curator, decode) + Harvest(curator(j, Contexts(bs[j])), true, decode)
  {
    assert bs[..j + 1][..j] == bs[..j];
  }

  /** Buckets holding each category's items sorted are the ones `Assemble` uses. */
  lemma SortedBucketsAre(items: seq<Item>, b: Buckets<Item>)
    requires forall c :: b.Get(c) == SortDesc(InBucket(items, c), Score)
    ensures b == SortedBuckets(items)
  {
    assert b.development == b.Get(DevelopmentNews) && b.business == b.Get(BusinessSpotlights);
    assert b.community == b.Get(CommunityStories) && b.planning == b.Get(PlanningPolicy);
  }

  /** One batch of `curate_with_claude`: its contexts sent to the model, the reply harvested. */
  method CurateBatch(j: nat, batch: seq<SearchRecord>, curator: (nat, seq<string>) -> Reply,
                     decode: string -> Decoded)
    returns (harvested: seq<Item>)
    ensures harvested == Harvest(curator(j, Contexts(batch)), true, decode)
  {
    var contexts := BatchContexts(batch);
    var reply := curator(j, contexts);
    harvested := Harvest(reply, true, decode);
  }

  /** Lines 222-318 for batch `j`: slice it at cursor `i`, curate it, add its harvest. */
  method NextBatch(records: seq<SearchRecord>, i: nat, j: nat, acc: seq<Item>,
                   curator: (nat, seq<string>) -> Reply, decode: string -> Decoded)
    returns (next: seq<Item>)
    requires i == BatchSize * j && j < NumBatches(|records|)
    requires acc == Collected(Batches(records)[..j], curator, decode)
    ensures next == Collected(Batches(records)[..j + 1], curator, decode)
  {
    var batch := SliceBatch(records, i, j);
    var harvested := CurateBatch(j, batch, curator, decode);
    CollectedStep(Batches(records), j, curator, decode);
    next := acc + harvested;
  }

  /** The batch loop of `curate_with_claude`: batches of two, each adding all of its decoded
      items or none, and a pause after every batch but the last. */
  method CollectBatches(records: seq<SearchRecord>, curator: (nat, seq<string>) -> Reply,
                        decode: string -> Decoded)
    returns (acc: seq<Item>, sleeps: seq<nat>)
    ensures acc == Collected(Batches(records), curator, decode)
    ensures |sleeps| == if records == [] then 0 else NumBatches(|records|) - 1
    ensures forall k | 0 <= k < |sleeps| :: sleeps[k] == BatchPause
  {
    var n := NumBatches(|records|);
    acc, sleeps := [], [];
    var i, j := 0, 0;
    BatchIndex(|records|, 0);
    while i < |records|
      invariant i == BatchSize * j && j <= n
      invariant i < |records| <==> j < n
      invariant acc == Collected(Batches(records)[..j], curator, decode)
      invariant sleeps == PausesAfter(j, n, BatchPause)
    {
      BatchIndex(|records|, j + 1);
      acc := NextBatch(records, i, j, acc, curator, decode);
      if i + BatchSize < |records| {
        sleeps := sleeps + [BatchPause];
      }
      PausesAfterStep(j, n, BatchPause);
      i, j := i + BatchSize, j + 1;
    }
    assert Batches(records)[..j] == Batches(records);
    PausesAfterShape(n, n, BatchPause);
  }

  /** Lines 320-363: bucketing, sorting, the top three and the statistics. */
  method Summarise(acc: seq<Item>) returns (digest: Digest)
    ensures digest == Assemble(acc)
  {
    var b := Organize(acc);
    b := SortEach(b, Score);
    SortedBucketsAre(acc, b);
    var total := |acc|;
    var top := TopItems(acc);
    digest := Digest(b, WeekSummary(total, b.ActiveCount()), TitlesOrEmpty(top), top, total,
                     Stats(total, b.Counts(), ScoreSum(acc)));
  }

  /** `curate_with_claude`. */
  method CurateWithClaude(records: seq<SearchRecord>, curator: (nat, seq<string>) -> Reply,
                          decode: string -> Decoded)
    returns (digest: Digest, sleeps: seq<nat>)
    ensures digest == Assemble(Collected(Batches(records), curator, decode))
    ensures |sleeps| == if records == [] then 0 else NumBatches(|records|) - 1
    ensures forall k | 0 <= k < |sleeps| :: sleeps[k] == BatchPause
  {
    var acc;
    acc, sleeps := CollectBatches(records, curator, decode);
    digest := Summarise(acc);
  }

  /** With the four fixed queries: three waits between searches and one pause between the two
      curation batches. */
  lemma SleepPlan(searchSleeps: seq<nat>, curateSleeps: seq<nat>, w: nat)
    requires |searchSleeps| == |SearchQueries| - 1
    requires forall k | 0 <= k < |searchSleeps| :: searchSleeps[k] == w
    requires |curateSleeps| == NumBatches(|SearchQueries|) - 1
    requires forall k | 0 <= k < |curateSleeps| :: curateSleeps[k] == BatchPause
    ensures searchSleeps + [CurationWait] + curateSleeps == [w, w, w, CurationWait, BatchPause]
  {
    assert searchSleeps == [w, w, w] by {
      assert searchSleeps[0] == w && searchSleeps[1] == w && searchSleeps[2] == w;
    }
    assert curateSleeps == [BatchPause] by {
      assert curateSleeps[0] == BatchPause;
    }
  }

  /** `discover_content`: the searches over the fixed queries, a 10 s wait, then curation. */
  method DiscoverContent(usePerplexity: bool,
                         perplexity: (nat, Query) -> PerplexityCall,
                         claude: (nat, Query) -> SearchCall,
                         curator: (nat, seq<string>) -> Reply,
                         decode: string -> Decoded)
    returns (curated: Digest, searches: seq<SearchRecord>, sleeps: seq<nat>)
    ensures |searches| == |SearchQueries|
    ensures forall i | 0 <= i < |SearchQueries| ::
              searches[i] == RecordFor(i, SearchQueries[i], usePerplexity, perplexity, claude)
    ensures curated == Assemble(Collected(Batches(searches), curator, decode))
    ensures var w := QueryWait(usePerplexity); sleeps == [w, w, w, CurationWait, BatchPause]
  {
    var searchSleeps, curateSleeps;
    searches, searchSleeps := RunSearches(SearchQueries, usePerplexity, perplexity, claude);
    curated, curateSleeps := CurateWithClaude(searches, curator, decode);
    SleepPlan(searchSleeps, curateSleeps, QueryWait(usePerplexity));
    sleeps := searchSleeps + [CurationWait] + curateSleeps;
  }
}
