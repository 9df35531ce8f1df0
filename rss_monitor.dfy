/** The RSS monitor: six configured feeds, a keyword and freshness filter over the first twenty
    entries of each, keyword-priority recategorisation with an additive score capped at 10, a
    stable sort of each bucket, and the reformatting of items into curation records. */
module RssMonitor {
  import opened Wrappers
  import opened Text
  import opened Seqs
  import opened Ranking
  import opened Findings
  import opened Curation

  datatype Feed = Feed(url: string, name: string, category: string)

  const Feeds: seq<Feed> := [
    Feed("https://www.ealing.gov.uk/news/rss", "Ealing Council", "planning_policy"),
    Feed("https://www.ealingtimes.co.uk/news/rss/", "Ealing Times", "development_news"),
    Feed("https://www.getwestlondon.co.uk/news/?service=rss", "Get West London", "development_news"),
    Feed("https://www.hammersmithandfulham.gov.uk/news/rss", "Hammersmith & Fulham Council", "planning_policy"),
    Feed("https://www.hs2.org.uk/feeds/news/", "HS2 Official", "development_news"),
    Feed("https://www.networkrail.co.uk/feed/", "Network Rail", "development_news")
  ]

  const EntryLimit: nat := 20
  const MaxAgeDays: int := 30
  const SummaryLimit: nat := 300
  const FeedPause: nat := 1

  const AreaKeywords: seq<string> := ["old oak", "oldoak", "park royal", "parkroyal", "opdc", "hs2", "nw10", "w3 ", "w12", "w10"]

  /** A parsed publication time: its `%Y-%m-%d` text and its age in whole days at run time. */
  datatype Stamp = Stamp(date: string, daysOld: int)

  /** The `published_parsed` key of an entry: absent, present but `None` (a date the parser could
      not read), or a parsed time. */
  datatype PublishedKey = NoPublished | UnreadPublished | Published(stamp: Stamp)

  /** A feed entry with the keys the monitor reads; for the other keys a missing key is `None`,
      and for `updated_parsed` a key holding `None` reads the same as a missing one. */
  datatype Entry = Entry(title: Option<string>, summary: Option<string>, description: Option<string>,
                         link: Option<string>, published: PublishedKey, updated: Option<Stamp>)

  /** `entry.get('summary', entry.get('description', ''))`. */
  function EntrySummary(e: Entry): string {
    match e.summary
    case Some(s) => s
    case None => e.description.GetOr("")
  }

  /** `entry.get('published_parsed', entry.get('updated_parsed'))`. */
  function EntryStamp(e: Entry): Option<Stamp> {
    match e.published
    case NoPublished => e.updated
    case UnreadPublished => None
    case Published(t) => Some(t)
  }

  /** The fallback to `updated_parsed` happens only when the `published_parsed` key is absent: a
      key holding `None` gives `None`, which fails the `if published:` test. */
  lemma EntryStampCases(e: Entry)
    ensures e.published.NoPublished? ==> EntryStamp(e) == e.updated
    ensures e.published.UnreadPublished? ==> EntryStamp(e).None? && !Relevant(e)
    ensures e.published.Published? ==> EntryStamp(e) == Some(e.published.stamp)
    ensures EntryStamp(e).Some? <==> e.published.Published? || (e.published.NoPublished? && e.updated.Some?)
  {
  }

  /** The lowercased title and summary the keywords are searched in. */
  function EntryText(e: Entry): string {
    Lower(e.title.GetOr("")) + " " + Lower(EntrySummary(e))
  }

  /** The entry names the area, carries a date, and is at most 30 days old. */
  predicate Relevant(e: Entry) {
    ContainsAny(EntryText(e), AreaKeywords) && EntryStamp(e).Some? && EntryStamp(e).value.daysOld <= MaxAgeDays
  }

  /** A monitored item; `score` and `relevance` are set by the categorisation pass. */
  datatype RssItem = RssItem(title: string, url: string, source: string, date: string, summary: string,
                             category: string, daysOld: int, score: Option<int>, relevance: Option<string>)

  /** The record kept for a relevant entry of `feed`. */
  function ItemOf(e: Entry, feed: Feed): (r: RssItem)
    requires EntryStamp(e).Some?
    ensures r.source == feed.name && r.category == feed.category && |r.summary| <= SummaryLimit
    ensures r.summary <= EntrySummary(e)
  {
    var stamp := EntryStamp(e).value;
    RssItem(e.title.GetOr("No title"), e.link.GetOr(""), feed.name, stamp.date,
            Take(EntrySummary(e), SummaryLimit), feed.category, stamp.daysOld, None, None)
  }

  /** The records of the relevant entries, in entry order. */
  function Kept(entries: seq<Entry>, feed: Feed): (r: seq<RssItem>)
    ensures |r| <= |entries|
  {
    if entries == [] then []
    else
      var e := entries[|entries| - 1];
      Kept(entries[..|entries| - 1], feed) + (if Relevant(e) then [ItemOf(e, feed)] else [])
  }

  /** A record is kept exactly when it comes from a relevant entry. */
  lemma {:induction false} KeptMeans(entries: seq<Entry>, feed: Feed, x: RssItem)
    ensures x in Kept(entries, feed) <==> exists e :: e in entries && Relevant(e) && x == ItemOf(e, feed)
  {
    if entries != [] {
      var j := |entries| - 1;
      KeptMeans(entries[..j], feed, x);
      assert entries == entries[..j] + [entries[j]];
    }
  }

  /** `feed.entries[:20]`. */
  function Examined(entries: seq<Entry>): (r: seq<Entry>)
    ensures |r| <= EntryLimit && r <= entries
  {
    entries[..if |entries| < EntryLimit then |entries| else EntryLimit]
  }

  /** The entry loop of one feed. */
  method ScanEntries(entries: seq<Entry>, feed: Feed) returns (relevant: seq<RssItem>)
    ensures relevant == Kept(Examined(entries), feed)
    ensures |relevant| <= EntryLimit
  {
    var examined := Examined(entries);
    relevant := [];
    var i := 0;
    while i < |examined|
      invariant 0 <= i <= |examined|
      invariant relevant == Kept(examined[..i], feed)
    {
      var entry := examined[i];
      assert examined[..i + 1][..i] == examined[..i];
      var title := Lower(entry.title.GetOr(""));
      var summary := Lower(EntrySummary(entry));
      var content := title + " " + summary;
      if ContainsAny(content, AreaKeywords) {
        var published := EntryStamp(entry);
        if published.Some? {
          if published.value.daysOld <= MaxAgeDays {
            relevant := relevant + [ItemOf(entry, feed)];
          }
        }
      }
      i := i + 1;
    }
    assert examined[..i] == examined;
  }

  /** What `feedparser.parse` gave for a feed: a bozo feed, its entries, or an exception. */
  datatype FeedOutcome = Bozo | Parsed(entries: seq<Entry>) | FeedRaised(message: string)

  /** What one feed adds: its relevant items when parsed, nothing when bozo or raised. */
  function FeedItems(feed: Feed, outcome: FeedOutcome): seq<RssItem> {
    match outcome
    case Parsed(entries) => Kept(Examined(entries), feed)
    case _ => []
  }

  /** The items of all feeds, in feed order. */
  function AllItems(feeds: seq<Feed>, parse: string -> FeedOutcome): seq<RssItem> {
    FlatMap(feeds, (f: Feed) => FeedItems(f, parse(f.url)))
  }

  /** The pause after each feed: none after a bozo feed, whose `continue` skips it. */
  function Pauses(feeds: seq<Feed>, parse: string -> FeedOutcome): seq<nat> {
    if feeds == [] then []
    else
      var j := |feeds| - 1;
      Pauses(feeds[..j], parse) + (if parse(feeds[j].url).Bozo? then [] else [FeedPause])
  }

  /** `fetch_rss_feeds`. */
  method FetchRssFeeds(feeds: seq<Feed>, parse: string -> FeedOutcome) returns (items: seq<RssItem>, sleeps: seq<nat>)
    ensures items == AllItems(feeds, parse)
    ensures sleeps == Pauses(feeds, parse)
  {
    items, sleeps := [], [];
    var i := 0;
    while i < |feeds|
      invariant 0 <= i <= |feeds|
      invariant items == AllItems(feeds[..i], parse) && sleeps == Pauses(feeds[..i], parse)
    {
      var feed := feeds[i];
      FeedStep(feeds, i, parse);
      match parse(feed.url) {
        case Bozo =>
          i := i + 1;
          continue;
        case Parsed(entries) =>
          var relevant := ScanEntries(entries, feed);
          if relevant != [] {
            items := items + relevant;
          } else {
            assert items + relevant == items;
          }
        case FeedRaised(_) =>
          assert items + [] == items;
      }
      sleeps := sleeps + [FeedPause];
      i := i + 1;
    }
    assert feeds[..i] == feeds;
  }

  /** One more feed extends the items by that feed's items and the pauses by its pause. */
  lemma FeedStep(feeds: seq<Feed>, i: nat, parse: string -> FeedOutcome)
    requires i < |feeds|
    ensures AllItems(feeds[..i + 1], parse) == AllItems(feeds[..i], parse) + FeedItems(feeds[i], parse(feeds[i].url))
    ensures Pauses(feeds[..i + 1], parse)
         == Pauses(feeds[..i], parse) + (if parse(feeds[i].url).Bozo? then [] else [FeedPause])
  {
    assert feeds[..i + 1][..i] == feeds[..i];
  }

  /** Feeds are concatenated in order: the items of two runs of feeds are the items of each. */
  lemma AllItemsConcat(a: seq<Feed>, b: seq<Feed>, parse: string -> FeedOutcome)
    ensures AllItems(a + b, parse) == AllItems(a, parse) + AllItems(b, parse)
  {
    FlatMapConcat(a, b, (f: Feed) => FeedItems(f, parse(f.url)));
  }

  lemma AllItemsSnoc(feeds: seq<Feed>, f: Feed, parse: string -> FeedOutcome)
    ensures AllItems(feeds + [f], parse) == AllItems(feeds, parse) + FeedItems(f, parse(f.url))
  {
    assert (feeds + [f])[..|feeds|] == feeds;
  }

  /** Every item comes from a feed that parsed, carries that feed's name and category, and holds
      at most 300 characters of summary. */
  lemma {:induction false} AllItemsFrom(feeds: seq<Feed>, parse: string -> FeedOutcome, x: RssItem)
    requires x in AllItems(feeds, parse)
    ensures exists f :: f in feeds && parse(f.url).Parsed? && x.source == f.name && x.category == f.category
    ensures |x.summary| <= SummaryLimit
  {
    var j := |feeds| - 1;
    if x in FeedItems(feeds[j], parse(feeds[j].url)) {
      var entries := parse(feeds[j].url).entries;
      KeptMeans(Examined(entries), feeds[j], x);
    } else {
      AllItemsFrom(feeds[..j], parse, x);
      var f :| f in feeds[..j] && parse(f.url).Parsed? && x.source == f.name && x.category == f.category;
      assert f in feeds;
    }
  }

  /** One pause per feed that was not bozo, whether it parsed or raised. */
  lemma {:induction false} PausesCount(feeds: seq<Feed>, parse: string -> FeedOutcome)
    ensures |Pauses(feeds, parse)| <= |feeds|
    ensures (forall f :: f in feeds ==> !parse(f.url).Bozo?) ==> |Pauses(feeds, parse)| == |feeds|
  {
    if feeds != [] {
      PausesCount(feeds[..|feeds| - 1], parse);
    }
  }

  const BusinessKeywords: seq<string> := ["shop", "business", "restaurant", "cafe", "opening", "retail", "store"]
  const CommunityKeywords: seq<string> := ["community", "residents", "event", "forum", "group", "meeting"]
  const PlanningKeywords: seq<string> := ["planning", "application", "consultation", "proposal", "development"]
  const LaunchWords: seq<string> := ["opening", "new", "launch"]
  const ScoreCap: int := 10

  /** The lowercased title and summary categorisation searches. */
  function ItemText(x: RssItem): string {
    Lower(x.title) + " " + Lower(x.summary)
  }

  /** The bucket an item goes to: planning keywords win over community ones, community over
      business, business over the item's own category. */
  function ChosenCategory(content: string, own: string): (r: string)
    ensures r == own || r in ["planning_policy", "community_stories", "business_spotlights"]
  {
    if ContainsAny(content, PlanningKeywords) then "planning_policy"
    else if ContainsAny(content, CommunityKeywords) then "community_stories"
    else if ContainsAny(content, BusinessKeywords) then "business_spotlights"
    else own
  }

  /** The freshness bonus: +2 within a week, +1 within a fortnight. */
  function FreshnessBonus(daysOld: int): nat {
    if daysOld <= 7 then 2 else if daysOld <= 14 then 1 else 0
  }

  /** The uncapped score: base 5 plus every bonus that applies. */
  function RawScore(content: string, daysOld: int, category: string): int {
    5 + FreshnessBonus(daysOld)
    + (if Contains(content, "old oak common") then 2 else 0)
    + (if Contains(content, "park royal") then 2 else 0)
    + (if Contains(content, "hs2") && Contains(content, "old oak") then 1 else 0)
    + (if category == "business_spotlights" && ContainsAny(content, LaunchWords) then 1 else 0)
  }

  /** `min(score, 10)`: always between the base and the cap. */
  function RssScore(content: string, daysOld: int, category: string): (r: int)
    ensures 5 <= r <= ScoreCap
    ensures r == ScoreCap || r == RawScore(content, daysOld, category)
    ensures RawScore(content, daysOld, category) <= ScoreCap ==> r == RawScore(content, daysOld, category)
  {
    var raw := RawScore(content, daysOld, category);
    if raw <= ScoreCap then raw else ScoreCap
  }

  /** `f"Found via {source} RSS feed, {days_old} days old"`. */
  function Relevance(x: RssItem): string {
    "Found via " + x.source + " RSS feed, " + IntToString(x.daysOld) + " days old"
  }

  /** The item after its pass: score and relevance set, its own `category` key untouched. */
  function Scored(x: RssItem): RssItem {
    var content := ItemText(x);
    x.(score := Some(RssScore(content, x.daysOld, ChosenCategory(content, x.category))),
       relevance := Some(Relevance(x)))
  }

  /** Lines 126-141: the item's own category, overridden by each keyword list that matches. */
  method ChooseCategory(content: string, own: string) returns (category: string)
    ensures category == ChosenCategory(content, own)
  {
    category := own;
    if ContainsAny(content, BusinessKeywords) {
      category := "business_spotlights";
    }
    if ContainsAny(content, CommunityKeywords) {
      category := "community_stories";
    }
    if ContainsAny(content, PlanningKeywords) {
      category := "planning_policy";
    }
  }

  /** Lines 143-163: the base score and each bonus added in turn, before the cap. */
  method AddBonuses(content: string, daysOld: int, category: string) returns (score: int)
    ensures score == RawScore(content, daysOld, category)
  {
    score := 5;
    if daysOld <= 7 {
      score := score + 2;
    } else if daysOld <= 14 {
      score := score + 1;
    }
    if Contains(content, "old oak common") {
      score := score + 2;
    }
    if Contains(content, "park royal") {
      score := score + 2;
    }
    if Contains(content, "hs2") && Contains(content, "old oak") {
      score := score + 1;
    }
    if category == "business_spotlights" {
      if ContainsAny(content, LaunchWords) {
        score := score + 1;
      }
    }
  }

  /** The category and scored item computed step by step, as lines 121-166 reassign them. */
  method ScoreItem(x: RssItem) returns (category: string, y: RssItem)
    ensures category == ChosenCategory(ItemText(x), x.category)
    ensures y == Scored(x)
  {
    var content := Lower(x.title) + " " + Lower(x.summary);
    category := ChooseCategory(content, x.category);
    var score := AddBonuses(content, x.daysOld, category);
    y := x.(score := Some(if score <= ScoreCap then score else ScoreCap), relevance := Some(Relevance(x)));
  }

  /** The bucket an item's chosen category names, if it is one of the four keys. */
  function RssBucket(x: RssItem): Option<Category> {
    ParseCategory(ChosenCategory(ItemText(x), x.category))
  }

  /** The scored items routed to bucket `c`, in input order. */
  function Routed(items: seq<RssItem>, c: Category): seq<RssItem> {
    FilterMap(items, (x: RssItem) => RssBucket(x) == Some(c), Scored)
  }

  /** Every item's chosen category is one of the four keys. */
  predicate AllKnown(items: seq<RssItem>) {
    forall k | 0 <= k < |items| :: RssBucket(items[k]).Some?
  }

  /** The items after the pass stopped having scored the first `n`. */
  function ScoredUpTo(items: seq<RssItem>, n: nat): (r: seq<RssItem>)
    requires n <= |items|
    ensures |r| == |items|
    ensures forall k | 0 <= k < |items| :: r[k] == if k < n then Scored(items[k]) else items[k]
  {
    seq(|items|, k requires 0 <= k < |items| => if k < n then Scored(items[k]) else items[k])
  }

  /** `x['score']`, set on every categorised item. */
  function RssKey(x: RssItem): int { x.score.GetOr(0) }

  const UnknownCategory: string := "KeyError"

  /** `categorize_rss_items`, with the in-place updates returned as `scored`. An item whose
      chosen category is not a key raises after it has been scored; the items before it stay
      scored and the ones after it untouched. */
  method CategorizeRssItems(items: seq<RssItem>) returns (scored: seq<RssItem>, r: Result<Buckets<RssItem>>)
    ensures AllKnown(items) ==>
      && scored == ScoredUpTo(items, |items|)
      && r.Success? && forall c :: r.value.Get(c) == SortDesc(Routed(items, c), RssKey)
    ensures !AllKnown(items) ==>
      && r.Failure?
      && exists n :: 0 <= n < |items| && RssBucket(items[n]).None? && AllKnown(items[..n])
                     && scored == ScoredUpTo(items, n + 1)
  {
    var b := EmptyBuckets<RssItem>();
    scored := items;
    var i := 0;
    while i < |items|
      invariant 0 <= i <= |items|
      invariant scored == ScoredUpTo(items, i)
      invariant AllKnown(items[..i])
      invariant forall c :: b.Get(c) == Routed(items[..i], c)
    {
      var x := items[i];
      var category, y := ScoreItem(x);
      ScoredStep(items, i);
      scored := scored[i := y];
      var c := ParseCategory(category);
      if c.None? {
        assert RssBucket(items[i]).None?;
        return scored, Failure(UnknownCategory + ": '" + category + "'");
      }
      RoutedStep(items, i, b);
      AllKnownStep(items, i);
      b := b.Set(c.value, b.Get(c.value) + [y]);
      i := i + 1;
    }
    assert items[..i] == items;
    var sorted := SortEach(b, RssKey);
    r := Success(sorted);
  }

  lemma ScoredStep(items: seq<RssItem>, i: nat)
    requires i < |items|
    ensures ScoredUpTo(items, i)[i := Scored(items[i])] == ScoredUpTo(items, i + 1)
  {
  }

  /** Appending an item with a known bucket to that bucket extends the routing by one item. */
  lemma RoutedStep(items: seq<RssItem>, i: nat, b: Buckets<RssItem>)
    requires i < |items| && RssBucket(items[i]).Some?
    requires forall c :: b.Get(c) == Routed(items[..i], c)
    ensures var c0 := RssBucket(items[i]).value;
      forall c :: b.Set(c0, b.Get(c0) + [Scored(items[i])]).Get(c) == Routed(items[..i + 1], c)
  {
    var c0 := RssBucket(items[i]).value;
    var next := b.Set(c0, b.Get(c0) + [Scored(items[i])]);
    forall c ensures next.Get(c) == Routed(items[..i + 1], c) {
      RoutedAt(items, i, c);
    }
  }

  /** Routing the first `i + 1` items is routing the first `i` and then item `i`. */
  lemma RoutedAt(items: seq<RssItem>, i: nat, c: Category)
    requires i < |items|
    ensures Routed(items[..i + 1], c)
         == Routed(items[..i], c) + (if RssBucket(items[i]) == Some(c) then [Scored(items[i])] else [])
  {
    var prefix := items[..i + 1];
    assert prefix[..i] == items[..i];
    RoutedSnoc(prefix, c);
  }

  /** A known item keeps the prefix known. */
  lemma AllKnownStep(items: seq<RssItem>, i: nat)
    requires i < |items| && RssBucket(items[i]).Some?
    requires AllKnown(items[..i])
    ensures AllKnown(items[..i + 1])
  {
    var prefix := items[..i + 1];
    forall k | 0 <= k < |prefix| ensures RssBucket(prefix[k]).Some? {
      var x := prefix[k];
      if k < i {
        assert x == items[..i][k];
      } else {
        assert x == items[i];
      }
    }
  }

  /** Each item goes to exactly one bucket: when all categories are keys the buckets together
      hold as many items as were given, and an item is in bucket `c` exactly when its scored
      form was routed there. */
  lemma {:induction false} RoutedAccount(items: seq<RssItem>)
    requires AllKnown(items)
    ensures |Routed(items, DevelopmentNews)| + |Routed(items, BusinessSpotlights)|
          + |Routed(items, CommunityStories)| + |Routed(items, PlanningPolicy)| == |items|
  {
    if items != [] {
      var j := |items| - 1;
      var prefix := items[..j];
      assert forall k | 0 <= k < j :: prefix[k] == items[k];
      RoutedAccount(prefix);
      var bucket := RssBucket(items[j]);
      assert bucket.Some?;
      RoutedSnoc(items, DevelopmentNews);
      RoutedSnoc(items, BusinessSpotlights);
      RoutedSnoc(items, CommunityStories);
      RoutedSnoc(items, PlanningPolicy);
    }
  }

  /** The routing of a non-empty sequence is that of all but its last item, plus the last one's
      scored form if it belongs to the bucket. */
  lemma RoutedSnoc(items: seq<RssItem>, c: Category)
    requires items != []
    ensures Routed(items, c) == Routed(items[..|items| - 1], c)
              + (if RssBucket(items[|items| - 1]) == Some(c) then [Scored(items[|items| - 1])] else [])
  {
  }

  lemma RoutedMembers(items: seq<RssItem>, c: Category, y: RssItem)
    ensures y in Routed(items, c) <==> exists x :: x in items && RssBucket(x) == Some(c) && y == Scored(x)
  {
    FilterMapMembers(items, (x: RssItem) => RssBucket(x) == Some(c), Scored, y);
  }

  /** Each sorted bucket is in non-increasing score order, a permutation of the items routed to
      it, keeps input order among equal scores, and holds only scores between 5 and 10. */
  lemma RssBucketSorted(items: seq<RssItem>, c: Category, k: int)
    ensures SortedDesc(SortDesc(Routed(items, c), RssKey), RssKey)
    ensures multiset(SortDesc(Routed(items, c), RssKey)) == multiset(Routed(items, c))
    ensures WithKey(SortDesc(Routed(items, c), RssKey), RssKey, k) == WithKey(Routed(items, c), RssKey, k)
    ensures forall y :: y in SortDesc(Routed(items, c), RssKey) ==> 5 <= RssKey(y) <= ScoreCap
  {
    SortDescSorted(Routed(items, c), RssKey);
    SortDescPermutes(Routed(items, c), RssKey);
    SortDescStable(Routed(items, c), RssKey, k);
    forall y | y in SortDesc(Routed(items, c), RssKey) ensures 5 <= RssKey(y) <= ScoreCap {
      assert y in multiset(Routed(items, c));
      RoutedMembers(items, c, y);
    }
  }

  /** Items fetched from the configured feeds never raise: each feed's category is a key. */
  lemma FetchedItemsKnown(parse: string -> FeedOutcome)
    ensures AllKnown(AllItems(Feeds, parse))
  {
    var items := AllItems(Feeds, parse);
    forall k | 0 <= k < |items| ensures RssBucket(items[k]).Some? {
      AllItemsFrom(Feeds, parse, items[k]);
      FeedCategoriesKnown();
      ChosenKnown(ItemText(items[k]), items[k].category);
    }
  }

  lemma FeedCategoriesKnown()
    ensures forall f :: f in Feeds ==> ParseCategory(f.category).Some?
  {
    assert ParseCategory("planning_policy").Some? && ParseCategory("development_news").Some?;
  }

  /** Recategorisation only ever picks a key, or keeps the item's own category. */
  lemma ChosenKnown(content: string, own: string)
    requires ParseCategory(own).Some?
    ensures ParseCategory(ChosenCategory(content, own)).Some?
  {
    assert ParseCategory("planning_policy").Some? && ParseCategory("community_stories").Some?;
    assert ParseCategory("business_spotlights").Some?;
  }

  /** A fresher item never scores lower than an otherwise identical older one. */
  lemma FresherScoresNoLower(content: string, newer: int, older: int, category: string)
    requires newer <= older
    ensures RssScore(content, newer, category) >= RssScore(content, older, category)
  {
  }

  /** `format_rss_for_curation` for one item. */
  function RssRecord(x: RssItem): SearchRecord {
    SearchRecord("RSS: " + x.source, x.category, "RSS feed monitoring",
                 Found(SearchResults(ItemContent(x.title, x.date, x.summary, x.url), [x.url], "rss")), 1, None)
  }

  /** `format_rss_for_curation`: one record per item, in item order. */
  function FormatRssForCuration(items: seq<RssItem>): (r: seq<SearchRecord>)
    ensures |r| == |items|
  {
    seq(|items|, k requires 0 <= k < |items| => RssRecord(items[k]))
  }

  /** Formatting is a map: it distributes over concatenation and each record's query names the
      item's source, its only citation is the item's URL, and it counts one result. */
  lemma FormatRssFacts(a: seq<RssItem>, b: seq<RssItem>, k: nat)
    ensures FormatRssForCuration(a + b) == FormatRssForCuration(a) + FormatRssForCuration(b)
    ensures k < |a| ==>
      var r := FormatRssForCuration(a)[k];
      && r.query[..5] == "RSS: " && r.query[5..] == a[k].source
      && r.category == a[k].category && r.resultCount == 1 && r.error.None?
      && r.results.Found? && r.results.found.citations == [a[k].url] && r.results.found.source == "rss"
  {
  }
}
