/** The improved revision of the discovery script: four plain-text queries searched through
    Claude, one record of `analysis` findings per query, a total of the result counts, then
    curation in batches of two from short summaries, brace extraction without fence stripping,
    bucketing, sorting and the top three titles. */
module ImprovedDiscovery {
  import opened Wrappers
  import opened Text
  import opened Ranking
  import opened Extraction
  import opened Batching
  import opened Findings
  import opened Curation

  const SearchQueries: seq<string> := [
    "Old Oak Common HS2 station news 2025",
    "Park Royal development news London",
    "Old Oak Common local business openings",
    "OPDC planning applications Old Oak"
  ]

  const QueryWait: nat := 20
  const BatchPause: nat := 5
  const KeyFindingLimit: nat := 500

  /** The message of the `KeyError` raised when a record or an item lacks a key. */
  const MissingResultCount: string := "KeyError: 'result_count'"
  const MissingTitle: string := "KeyError: 'title'"

  /** `{"summary": ..., "type": ...}`. */
  datatype Finding = Finding(summary: string, kind: string)

  /** One `analysis` finding per text, in order. */
  function Analyses(texts: seq<string>): (r: seq<Finding>)
    ensures |r| == |texts|
    ensures forall k | 0 <= k < |texts| :: r[k] == Finding(texts[k], "analysis")
  {
    if texts == [] then [] else Analyses(texts[..|texts| - 1]) + [Finding(texts[|texts| - 1], "analysis")]
  }

  /** `extract_search_results`: one finding per text block, in block order; other blocks are
      skipped. */
  method ExtractSearchResults(blocks: seq<Block>) returns (findings: seq<Finding>)
    ensures findings == Analyses(Texts(blocks))
    ensures |findings| == CountText(blocks)
  {
    findings := [];
    var i := 0;
    while i < |blocks|
      invariant 0 <= i <= |blocks|
      invariant findings == Analyses(Texts(blocks[..i]))
    {
      assert blocks[..i + 1][..i] == blocks[..i];
      match blocks[i] {
        case TextBlock(t) =>
          assert Texts(blocks[..i + 1]) == Texts(blocks[..i]) + [t];
          assert (Texts(blocks[..i]) + [t])[..|Texts(blocks[..i])|] == Texts(blocks[..i]);
          findings := findings + [Finding(t, "analysis")];
        case OtherBlock =>
          assert Texts(blocks[..i + 1]) == Texts(blocks[..i]) + [];
          assert Texts(blocks[..i]) + [] == Texts(blocks[..i]);
      }
      i := i + 1;
    }
    assert blocks[..i] == blocks;
    TextsCount(blocks);
  }

  /** A record of `all_search_results`: a failed search leaves no `result_count` key. */
  datatype Record = Record(query: string, findings: seq<Finding>, resultCount: Option<nat>, error: Option<string>)

  /** The record appended for one query (lines 50-64). */
  function RecordFor(q: string, call: SearchCall): Record {
    match call
    case Answered(blocks) =>
      var fs := Analyses(Texts(blocks));
      Record(q, fs, Some(|fs|), None)
    case SearchRaised(m) => Record(q, [], None, Some(m))
  }

  /** The records of the query loop, one per query, in order. */
  function Records(queries: seq<string>, search: (nat, string) -> SearchCall): (r: seq<Record>)
    ensures |r| == |queries|
    ensures forall i | 0 <= i < |queries| :: r[i] == RecordFor(queries[i], search(i, queries[i]))
  {
    seq(|queries|, i requires 0 <= i < |queries| => RecordFor(queries[i], search(i, queries[i])))
  }

  /** The query loop of `discover_content`: one record per query, and a 20 s wait after every
      query but the last. */
  method RunSearches(queries: seq<string>, search: (nat, string) -> SearchCall)
    returns (records: seq<Record>, sleeps: seq<nat>)
    ensures records == Records(queries, search)
    ensures |sleeps| == if queries == [] then 0 else |queries| - 1
    ensures forall k | 0 <= k < |sleeps| :: sleeps[k] == QueryWait
  {
    records, sleeps := [], [];
    var i := 0;
    while i < |queries|
      invariant 0 <= i <= |queries|
      invariant |records| == i
      invariant forall j | 0 <= j < i :: records[j] == RecordFor(queries[j], search(j, queries[j]))
      invariant |sleeps| == if i == 0 then 0 else if i < |queries| then i else i - 1
      invariant forall k | 0 <= k < |sleeps| :: sleeps[k] == QueryWait
    {
      var q := queries[i];
      match search(i, q) {
        case Answered(blocks) =>
          var fs := ExtractSearchResults(blocks);
          records := records + [Record(q, fs, Some(|fs|), None)];
        case SearchRaised(m) =>
          records := records + [Record(q, [], None, Some(m))];
      }
      if i < |queries| - 1 {
        sleeps := sleeps + [QueryWait];
      }
      i := i + 1;
    }
  }

  /** `sum(r['result_count'] for r in all_search_results)` (line 71). */
  function TotalResults(records: seq<Record>): Result<nat> {
    if records == [] then Success(0)
    else
      match TotalResults(records[..|records| - 1])
      case Failure(e) => Failure(e)
      case Success(n) =>
        match records[|records| - 1].resultCount
        case None => Failure(MissingResultCount)
        case Some(c) => Success(n + c)
  }

  /** The sum is computed exactly when every record carries a count. */
  lemma {:induction false} TotalResultsFails(records: seq<Record>)
    ensures TotalResults(records).Failure? <==> exists k :: 0 <= k < |records| && records[k].resultCount.None?
  {
    if records != [] {
      var j := |records| - 1;
      TotalResultsFails(records[..j]);
      if exists k :: 0 <= k < j && records[..j][k].resultCount.None? {
        var k :| 0 <= k < j && records[..j][k].resultCount.None?;
        assert records[k] == records[..j][k];
      }
      if exists k :: 0 <= k < |records| && records[k].resultCount.None? {
        var k :| 0 <= k < |records| && records[k].resultCount.None?;
        if k < j {
          assert records[..j][k] == records[k];
        }
      }
    }
  }

  /** A successful search's count is its number of findings, which is its number of text
      blocks. */
  lemma RecordCount(q: string, blocks: seq<Block>)
    ensures RecordFor(q, Answered(blocks)).resultCount == Some(CountText(blocks))
    ensures RecordFor(q, Answered(blocks)).error.None?
    ensures forall m :: RecordFor(q, SearchRaised(m)).resultCount.None?
  {
    TextsCount(blocks);
  }

  /** The total is the sum of the findings of all records when every search succeeded. */
  function FindingTotal(records: seq<Record>): nat {
    if records == [] then 0 else FindingTotal(records[..|records| - 1]) + |records[|records| - 1].findings|
  }

  lemma {:induction false} TotalCountsFindings(records: seq<Record>)
    requires forall k | 0 <= k < |records| :: records[k].resultCount == Some(|records[k].findings|)
    ensures TotalResults(records) == Success(FindingTotal(records))
  {
    if records != [] {
      var j := |records| - 1;
      assert forall k | 0 <= k < j :: records[..j][k] == records[k];
      TotalCountsFindings(records[..j]);
    }
  }

  /** A search that raises makes the summation at line 71 raise: the run ends before curation. */
  lemma FailedSearchAborts(queries: seq<string>, search: (nat, string) -> SearchCall, i: nat)
    requires i < |queries| && search(i, queries[i]).SearchRaised?
    ensures TotalResults(Records(queries, search)) == Failure(MissingResultCount)
  {
    var rs := Records(queries, search);
    assert rs[i].resultCount.None?;
    TotalResultsFails(rs);
    TotalResultsMessage(rs);
  }

  /** The only error the summation raises is the missing key. */
  lemma {:induction false} TotalResultsMessage(records: seq<Record>)
    ensures TotalResults(records).Failure? ==> TotalResults(records).error == MissingResultCount
  {
    if records != [] {
      TotalResultsMessage(records[..|records| - 1]);
    }
  }

  /** The record a failed search would get if it carried `result_count: 0`, as the perplexity
      revision's records do. */
  function CorrectedRecordFor(q: string, call: SearchCall): Record {
    match call
    case Answered(_) => RecordFor(q, call)
    case SearchRaised(m) => Record(q, [], Some(0), Some(m))
  }

  function CorrectedRecords(queries: seq<string>, search: (nat, string) -> SearchCall): (r: seq<Record>)
    ensures |r| == |queries|
    ensures forall i | 0 <= i < |queries| :: r[i] == CorrectedRecordFor(queries[i], search(i, queries[i]))
  {
    seq(|queries|, i requires 0 <= i < |queries| => CorrectedRecordFor(queries[i], search(i, queries[i])))
  }

  /** With the corrected records the total is always computed: it is the number of findings over
      all queries, failed ones counting 0. Every batch is then curated, so the only error left
      is the `KeyError` of a title-less item among the top three. */
  lemma CorrectedTotal(queries: seq<string>, search: (nat, string) -> SearchCall,
                       curator: (nat, seq<string>) -> Reply, decode: string -> Decoded)
    ensures TotalResults(CorrectedRecords(queries, search)) == Success(FindingTotal(CorrectedRecords(queries, search)))
    ensures CollectedSmart(Batches(CorrectedRecords(queries, search)), curator, decode).Success?
    ensures CurateSpec(CorrectedRecords(queries, search), curator, decode).Failure? ==>
              CurateSpec(CorrectedRecords(queries, search), curator, decode).error == MissingTitle
  {
    var rs := CorrectedRecords(queries, search);
    TotalCountsFindings(rs);
    CountedCurates(rs, curator, decode);
  }

  /** `discover_content` with the corrected records: the total is always the number of findings
      and curation always runs over every batch. */
  method CorrectedDiscoverContent(search: (nat, string) -> SearchCall, curator: (nat, seq<string>) -> Reply,
                                  decode: string -> Decoded)
    returns (curated: Result<Digest>, records: seq<Record>, total: nat)
    ensures records == CorrectedRecords(SearchQueries, search)
    ensures total == FindingTotal(records)
    ensures CollectedSmart(Batches(records), curator, decode).Success?
    ensures curated == CurateSpec(records, curator, decode)
  {
    records := CorrectedRecords(SearchQueries, search);
    CorrectedTotal(SearchQueries, search, curator, decode);
    var sum := TotalResults(records);
    total := sum.value;
    var sleeps;
    curated, sleeps := CurateResultsSmart(records, curator, decode);
  }

  /** `Key finding: ` line of the first finding, cut to 500 characters; absent without findings. */
  function KeyFinding(findings: seq<Finding>): (r: string)
    ensures r == "" <==> findings == []
  {
    if findings == [] then ""
    else "Key finding: " + Take(findings[0].summary, KeyFindingLimit) + "\n"
  }

  /** The key-finding line quotes a prefix of the first finding of at most 500 characters, all of
      it when the finding is that short. */
  lemma KeyFindingQuotes(findings: seq<Finding>)
    requires findings != []
    ensures exists cut ::
      && |cut| <= KeyFindingLimit && KeyFinding(findings) == "Key finding: " + cut + "\n"
      && cut <= findings[0].summary
      && (|findings[0].summary| <= KeyFindingLimit ==> cut == findings[0].summary)
  {
    var cut := Take(findings[0].summary, KeyFindingLimit);
    assert cut <= findings[0].summary;
  }

  /** The summary text of one record (lines 115-121); reading `result_count` raises when the key
      is missing. */
  function ResultSummary(r: Record): Result<string> {
    match r.resultCount
    case None => Failure(MissingResultCount)
    case Some(n) => Success("Query: " + r.query + "\nResults found: " + NatToString(n) + "\n" + KeyFinding(r.findings))
  }

  /** The summaries of a batch, or the `KeyError` of its first record without a count. */
  function BatchSummaries(batch: seq<Record>): Result<seq<string>> {
    if batch == [] then Success([])
    else
      match BatchSummaries(batch[..|batch| - 1])
      case Failure(e) => Failure(e)
      case Success(prev) =>
        match ResultSummary(batch[|batch| - 1])
        case Failure(e) => Failure(e)
        case Success(t) => Success(prev + [t])
  }

  /** A batch is summarised exactly when all of its records carry a count, one summary per
      record. */
  lemma {:induction false} BatchSummariesMeans(batch: seq<Record>)
    ensures BatchSummaries(batch).Success? <==> forall k | 0 <= k < |batch| :: batch[k].resultCount.Some?
    ensures BatchSummaries(batch).Success? ==>
      |BatchSummaries(batch).value| == |batch|
      && forall k | 0 <= k < |batch| :: Success(BatchSummaries(batch).value[k]) == ResultSummary(batch[k])
  {
    if batch != [] {
      var j := |batch| - 1;
      assert forall k | 0 <= k < j :: batch[..j][k] == batch[k];
      BatchSummariesMeans(batch[..j]);
    }
  }

  /** The text lines 116-121 build for one record that carries a count. */
  method SummaryText(record: Record) returns (text: string)
    requires record.resultCount.Some?
    ensures Success(text) == ResultSummary(record)
  {
    var count := NatToString(record.resultCount.value);
    text := "Query: " + record.query + "\n";
    text := text + "Results found: " + count + "\n";
    ghost var head := text;
    if record.findings != [] {
      text := text + "Key finding: " + Take(record.findings[0].summary, KeyFindingLimit) + "\n";
    }
    assert text == head + KeyFinding(record.findings);
    assert head == "Query: " + record.query + "\nResults found: " + count + "\n";
  }

  /** `batch_summary` built record by record. */
  method SummariseBatch(batch: seq<Record>) returns (r: Result<seq<string>>)
    ensures r == BatchSummaries(batch)
  {
    var summaries: seq<string> := [];
    var k := 0;
    while k < |batch|
      invariant 0 <= k <= |batch|
      invariant BatchSummaries(batch[..k]) == Success(summaries)
    {
      assert batch[..k + 1][..k] == batch[..k];
      var record := batch[k];
      if record.resultCount.None? {
        BatchSummariesPrefixFails(batch, k + 1);
        return Failure(MissingResultCount);
      }
      var text := SummaryText(record);
      summaries := summaries + [text];
      k := k + 1;
    }
    assert batch[..k] == batch;
    r := Success(summaries);
  }

  /** Once a prefix of the batch fails, the whole batch fails with the same message. */
  lemma {:induction false} BatchSummariesPrefixFails(batch: seq<Record>, n: nat)
    requires n <= |batch|
    requires BatchSummaries(batch[..n]).Failure?
    ensures BatchSummaries(batch) == Failure(MissingResultCount)
    decreases |batch| - n
  {
    BatchSummariesMessage(batch[..n]);
    if n < |batch| {
      assert batch[..n + 1][..n] == batch[..n];
      BatchSummariesPrefixFails(batch, n + 1);
    } else {
      assert batch[..n] == batch;
    }
  }

  lemma {:induction false} BatchSummariesMessage(batch: seq<Record>)
    ensures BatchSummaries(batch).Failure? ==> BatchSummaries(batch).error == MissingResultCount
  {
    if batch != [] {
      BatchSummariesMessage(batch[..|batch| - 1]);
    }
  }

  /** The items accumulated batch after batch, or the `KeyError` of the first batch holding a
      record without a count; the reply text is sliced without removing fences. */
  function CollectedSmart(bs: seq<seq<Record>>, curator: (nat, seq<string>) -> Reply,
                          decode: string -> Decoded): Result<seq<Item>>
  {
    if bs == [] then Success([])
    else
      var j := |bs| - 1;
      match CollectedSmart(bs[..j], curator, decode)
      case Failure(e) => Failure(e)
      case Success(acc) =>
        match BatchSummaries(bs[j])
        case Failure(e) => Failure(e)
        case Success(summaries) => Success(acc + Harvest(curator(j, summaries), false, decode))
  }

  /** Records that all carry a count are always curated, whatever the model replies. */
  lemma CountedCurates(records: seq<Record>, curator: (nat, seq<string>) -> Reply, decode: string -> Decoded)
    requires forall k | 0 <= k < |records| :: records[k].resultCount.Some?
    ensures CollectedSmart(Batches(records), curator, decode).Success?
  {
    var bs: seq<seq<Record>> := Batches(records);
    forall j, k | 0 <= j < |bs| && 0 <= k < |bs[j]| ensures bs[j][k].resultCount.Some? {
      BatchElement(records, j, k);
    }
    CountedBatchesCurate(bs, curator, decode);
  }

  lemma {:induction false} CountedBatchesCurate(bs: seq<seq<Record>>, curator: (nat, seq<string>) -> Reply,
                                                decode: string -> Decoded)
    requires forall j | 0 <= j < |bs| :: forall k | 0 <= k < |bs[j]| :: bs[j][k].resultCount.Some?
    ensures CollectedSmart(bs, curator, decode).Success?
  {
    if bs != [] {
      var j := |bs| - 1;
      assert forall m | 0 <= m < j :: bs[..j][m] == bs[m];
      CountedBatchesCurate(bs[..j], curator, decode);
      BatchSummariesMeans(bs[j]);
    }
  }

  /** The digest of this revision. */
  datatype Digest = Digest(categories: Buckets<Item>, weekSummary: string, topStories: seq<string>, totalItems: nat)

  function WeekSummary(total: nat, active: nat): string {
    "This week's content review found " + NatToString(total) + " stories across " + NatToString(active)
    + " categories. "
  }

  /** `[item['title'] for item in top3]`: raises on the first item without a title. */
  function Titles(items: seq<Item>): (r: Result<seq<string>>)
    ensures r.Success? <==> forall k | 0 <= k < |items| :: items[k].title.Some?
    ensures r.Failure? ==> r.error == MissingTitle
    ensures r.Success? ==> |r.value| == |items| && forall k | 0 <= k < |items| :: r.value[k] == items[k].title.value
  {
    if items == [] then Success([])
    else
      var j := |items| - 1;
      assert forall k | 0 <= k < j :: items[..j][k] == items[k];
      match Titles(items[..j])
      case Failure(e) => Failure(e)
      case Success(ts) =>
        match items[j].title
        case None => Failure(MissingTitle)
        case Some(t) => Success(ts + [t])
  }

  /** Lines 184-210: the digest, or the `KeyError` of a title-less item among the top three. */
  function Assemble(items: seq<Item>): Result<Digest> {
    var b := SortedBuckets(items);
    match Titles(TopItems(items))
    case Failure(e) => Failure(e)
    case Success(top) => Success(Digest(b, WeekSummary(|items|, b.ActiveCount()), top, |items|))
  }

  /** The four buckets, each sorted by score, best first. */
  function SortedBuckets(items: seq<Item>): Buckets<Item> {
    Buckets(SortDesc(InBucket(items, DevelopmentNews), Score),
            SortDesc(InBucket(items, BusinessSpotlights), Score),
            SortDesc(InBucket(items, CommunityStories), Score),
            SortDesc(InBucket(items, PlanningPolicy), Score))
  }

  lemma SortedBucketsGet(items: seq<Item>, c: Category)
    ensures SortedBuckets(items).Get(c) == SortDesc(InBucket(items, c), Score)
  {
    match c
    case DevelopmentNews =>
    case BusinessSpotlights =>
    case CommunityStories =>
    case PlanningPolicy =>
  }

  /** The digest is produced exactly when the three best items all have titles; its buckets are
      then sorted, stable permutations of the recognised items and `total_items` counts every
      accumulated item. */
  lemma DigestFacts(items: seq<Item>, c: Category, k: int)
    ensures Assemble(items).Success? <==> forall x :: x in TopItems(items) ==> x.title.Some?
    ensures Assemble(items).Success? ==>
      var d := Assemble(items).value;
      && d.totalItems == |items|
      && SortedDesc(d.categories.Get(c), Score)
      && multiset(d.categories.Get(c)) == multiset(InBucket(items, c))
      && WithKey(d.categories.Get(c), Score, k) == WithKey(InBucket(items, c), Score, k)
      && |d.topStories| == |TopItems(items)|
      && (forall i | 0 <= i < |d.topStories| :: Some(d.topStories[i]) == TopItems(items)[i].title)
  {
    SortedBucketsGet(items, c);
    SortedBucket(items, c, k);
  }

  /** One batch of `curate_results_smart`: the summaries sent to the model, the reply
      harvested. */
  method CurateBatch(j: nat, batch: seq<Record>, curator: (nat, seq<string>) -> Reply,
                     decode: string -> Decoded)
    returns (r: Result<seq<Item>>)
    ensures BatchSummaries(batch).Failure? ==> r == Failure(MissingResultCount)
    ensures BatchSummaries(batch).Success? ==>
      r == Success(Harvest(curator(j, BatchSummaries(batch).value), false, decode))
  {
    var summaries := SummariseBatch(batch);
    if summaries.Failure? {
      BatchSummariesMessage(batch);
      return Failure(MissingResultCount);
    }
    var reply := curator(j, summaries.value);
    r := Success(Harvest(reply, false, decode));
  }

  lemma CollectedSmartStep(bs: seq<seq<Record>>, j: nat, curator: (nat, seq<string>) -> Reply,
                           decode: string -> Decoded, acc: seq<Item>)
    requires j < |bs|
    requires CollectedSmart(bs[..j], curator, decode) == Success(acc)
    ensures BatchSummaries(bs[j]).Failure? ==> CollectedSmart(bs[..j + 1], curator, decode).Failure?
    ensures BatchSummaries(bs[j]).Success? ==>
      CollectedSmart(bs[..j + 1], curator, decode)
        == Success(acc + Harvest(curator(j, BatchSummaries(bs[j]).value), false, decode))
  {
    assert bs[..j + 1][..j] == bs[..j];
  }

  /** A failure in some prefix of the batches is the failure of them all. */
  lemma {:induction false} CollectedSmartPrefixFails(bs: seq<seq<Record>>, n: nat,
                                                     curator: (nat, seq<string>) -> Reply, decode: string -> Decoded)
    requires n <= |bs|
    requires CollectedSmart(bs[..n], curator, decode).Failure?
    ensures CollectedSmart(bs, curator, decode).Failure?
    decreases |bs| - n
  {
    if n < |bs| {
      assert bs[..n + 1][..n] == bs[..n];
      CollectedSmartPrefixFails(bs, n + 1, curator, decode);
    } else {
      assert bs[..n] == bs;
    }
  }

  /** The only error curation raises is the missing count. */
  lemma {:induction false} CollectedSmartMessage(bs: seq<seq<Record>>, curator: (nat, seq<string>) -> Reply,
                                                 decode: string -> Decoded)
    ensures CollectedSmart(bs, curator, decode).Failure? ==> CollectedSmart(bs, curator, decode).error == MissingResultCount
  {
    if bs != [] {
      CollectedSmartMessage(bs[..|bs| - 1], curator, decode);
      BatchSummariesMessage(bs[|bs| - 1]);
    }
  }

  /** The batch loop of `curate_results_smart`: batches of two, each adding all or none of its
      decoded items, a 5 s pause while another batch follows; a record without a count raises. */
  method CollectBatches(records: seq<Record>, curator: (nat, seq<string>) -> Reply, decode: string -> Decoded)
    returns (r: Result<seq<Item>>, sleeps: seq<nat>)
    ensures r == CollectedSmart(Batches(records), curator, decode)
    ensures r.Success? ==> |sleeps| == if records == [] then 0 else NumBatches(|records|) - 1
    ensures forall k | 0 <= k < |sleeps| :: sleeps[k] == BatchPause
  {
    ghost var bs := Batches(records);
    var n := NumBatches(|records|);
    var acc: seq<Item> := [];
    sleeps := [];
    var i, j := 0, 0;
    BatchIndex(|records|, 0);
    while i < |records|
      invariant i == BatchSize * j && j <= n && |bs| == n
      invariant i < |records| <==> j < n
      invariant CollectedSmart(bs[..j], curator, decode) == Success(acc)
      invariant sleeps == PausesAfter(j, n, BatchPause)
    {
      BatchIndex(|records|, j + 1);
      var batch := SliceBatch(records, i, j);
      var harvested := CurateBatch(j, batch, curator, decode);
      CollectedSmartStep(bs, j, curator, decode, acc);
      if harvested.Failure? {
        CollectedSmartPrefixFails(bs, j + 1, curator, decode);
        CollectedSmartMessage(bs, curator, decode);
        PausesAfterShape(j, n, BatchPause);
        return Failure(MissingResultCount), sleeps;
      }
      acc := acc + harvested.value;
      if i + BatchSize < |records| {
        sleeps := sleeps + [BatchPause];
      }
      PausesAfterStep(j, n, BatchPause);
      i, j := i + BatchSize, j + 1;
    }
    assert bs[..j] == bs;
    PausesAfterShape(n, n, BatchPause);
    r := Success(acc);
  }

  /** Lines 184-210: bucketing, sorting, the summary line and the top three titles. */
  method Summarise(acc: seq<Item>) returns (r: Result<Digest>)
    ensures r == Assemble(acc)
  {
    var b := Organize(acc);
    b := SortEach(b, Score);
    SortedBucketsAre(acc, b);
    var top := Titles(TopItems(acc));
    if top.Failure? {
      return Failure(top.error);
    }
    r := Success(Digest(b, WeekSummary(|acc|, b.ActiveCount()), top.value, |acc|));
  }

  lemma SortedBucketsAre(items: seq<Item>, b: Buckets<Item>)
    requires forall c :: b.Get(c) == SortDesc(InBucket(items, c), Score)
    ensures b == SortedBuckets(items)
  {
    assert b.development == b.Get(DevelopmentNews) && b.business == b.Get(BusinessSpotlights);
    assert b.community == b.Get(CommunityStories) && b.planning == b.Get(PlanningPolicy);
  }

  /** What `curate_results_smart` returns or raises. */
  function CurateSpec(records: seq<Record>, curator: (nat, seq<string>) -> Reply, decode: string -> Decoded): Result<Digest> {
    match CollectedSmart(Batches(records), curator, decode)
    case Failure(e) => Failure(e)
    case Success(acc) => Assemble(acc)
  }

  /** `curate_results_smart`. */
  method CurateResultsSmart(records: seq<Record>, curator: (nat, seq<string>) -> Reply, decode: string -> Decoded)
    returns (r: Result<Digest>, sleeps: seq<nat>)
    ensures r == CurateSpec(records, curator, decode)
    ensures CollectedSmart(Batches(records), curator, decode).Success? ==>
              |sleeps| == if records == [] then 0 else NumBatches(|records|) - 1
    ensures forall k | 0 <= k < |sleeps| :: sleeps[k] == BatchPause
  {
    var acc;
    acc, sleeps := CollectBatches(records, curator, decode);
    if acc.Failure? {
      return Failure(acc.error), sleeps;
    }
    r := Summarise(acc.value);
  }

  /** With the four fixed queries: three 20 s waits between the searches. */
  lemma SearchWaits(searchSleeps: seq<nat>)
    requires |searchSleeps| == |SearchQueries| - 1
    requires forall k | 0 <= k < |searchSleeps| :: searchSleeps[k] == QueryWait
    ensures searchSleeps == [QueryWait, QueryWait, QueryWait]
  {
    assert searchSleeps[0] == QueryWait && searchSleeps[1] == QueryWait && searchSleeps[2] == QueryWait;
  }

  /** With the four fixed queries: the three search waits, then one pause between the two
      curation batches. */
  lemma SleepPlan(searchSleeps: seq<nat>, curateSleeps: seq<nat>)
    requires |searchSleeps| == |SearchQueries| - 1
    requires forall k | 0 <= k < |searchSleeps| :: searchSleeps[k] == QueryWait
    requires |curateSleeps| == NumBatches(|SearchQueries|) - 1
    requires forall k | 0 <= k < |curateSleeps| :: curateSleeps[k] == BatchPause
    ensures searchSleeps + curateSleeps == [QueryWait, QueryWait, QueryWait, BatchPause]
  {
    SearchWaits(searchSleeps);
    assert curateSleeps == [BatchPause] by {
      assert curateSleeps[0] == BatchPause;
    }
  }

  /** `discover_content`: the searches, the total at line 71 (which raises after any failed
      search), then curation. */
  method DiscoverContent(search: (nat, string) -> SearchCall, curator: (nat, seq<string>) -> Reply,
                         decode: string -> Decoded)
    returns (curated: Result<Digest>, records: seq<Record>, sleeps: seq<nat>)
    ensures records == Records(SearchQueries, search)
    ensures TotalResults(records).Failure? ==> curated == Failure(MissingResultCount)
    ensures TotalResults(records).Success? ==> curated == CurateSpec(records, curator, decode)
    ensures TotalResults(records).Failure? ==> sleeps == [QueryWait, QueryWait, QueryWait]
    ensures TotalResults(records).Success? ==> sleeps == [QueryWait, QueryWait, QueryWait, BatchPause]
  {
    var searchSleeps;
    records, searchSleeps := RunSearches(SearchQueries, search);
    var total := TotalResults(records);
    if total.Failure? {
      TotalResultsMessage(records);
      SearchWaits(searchSleeps);
      return Failure(MissingResultCount), records, searchSleeps;
    }
    TotalResultsFails(records);
    CountedCurates(records, curator, decode);
    var curateSleeps;
    curated, curateSleeps := CurateResultsSmart(records, curator, decode);
    SleepPlan(searchSleeps, curateSleeps);
    sleeps := searchSleeps + curateSleeps;
  }
}
