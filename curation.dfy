/** What the curation pass shares between the two revisions that bucket and rank: the curated
    item as the model returns it, the four fixed categories, the per-batch all-or-nothing
    harvest, bucketing, per-bucket sorting and the top-three selection. */
module Curation {
  import opened Wrappers
  import opened Extraction
  import opened Ranking

  /** A curated item as decoded from the model's JSON. Only the keys the pipeline reads are
      modelled; a missing key is `None`. Everything else is carried along in `other`. */
  datatype Item = Item(
    title: Option<string>,
    category: Option<string>,
    score: Option<int>,
    other: map<string, string>)

  /** `item.get('score', 0)`: the sort key, a missing score counting as 0. */
  function Score(x: Item): int { x.score.GetOr(0) }

  datatype Category = DevelopmentNews | BusinessSpotlights | CommunityStories | PlanningPolicy

  const AllCategories: seq<Category> := [DevelopmentNews, BusinessSpotlights, CommunityStories, PlanningPolicy]

  function CategoryName(c: Category): string {
    match c
    case DevelopmentNews => "development_news"
    case BusinessSpotlights => "business_spotlights"
    case CommunityStories => "community_stories"
    case PlanningPolicy => "planning_policy"
  }

  /** `name in categories`: the key among the four, if it is one of them. */
  function ParseCategory(name: string): (r: Option<Category>)
    ensures r.Some? ==> CategoryName(r.value) == name
    ensures r.None? ==> forall c :: CategoryName(c) != name
  {
    if name == "development_news" then Some(DevelopmentNews)
    else if name == "business_spotlights" then Some(BusinessSpotlights)
    else if name == "community_stories" then Some(CommunityStories)
    else if name == "planning_policy" then Some(PlanningPolicy)
    else None
  }

  /** `item.get('category', 'community_stories')`, then the bucket it names, if any. */
  function BucketOf(x: Item): Option<Category> {
    ParseCategory(x.category.GetOr("community_stories"))
  }

  /** The `categories` dictionary: one list per fixed key. */
  datatype Buckets<T> = Buckets(development: seq<T>, business: seq<T>, community: seq<T>, planning: seq<T>) {
    function Get(c: Category): seq<T> {
      match c
      case DevelopmentNews => development
      case BusinessSpotlights => business
      case CommunityStories => community
      case PlanningPolicy => planning
    }

    function Set(c: Category, s: seq<T>): (r: Buckets<T>)
      ensures r.Get(c) == s
      ensures forall d :: d != c ==> r.Get(d) == Get(d)
    {
      match c
      case DevelopmentNews => this.(development := s)
      case BusinessSpotlights => this.(business := s)
      case CommunityStories => this.(community := s)
      case PlanningPolicy => this.(planning := s)
    }

    /** The sum of the four bucket lengths. */
    function Size(): nat { |development| + |business| + |community| + |planning| }

    /** `sum(1 for items in categories.values() if items)`. */
    function ActiveCount(): (r: nat)
      ensures r <= 4
      ensures r == 0 <==> Size() == 0
    {
      (if development != [] then 1 else 0) + (if business != [] then 1 else 0)
      + (if community != [] then 1 else 0) + (if planning != [] then 1 else 0)
    }

    /** `{cat: len(items) for cat, items in categories.items()}`. */
    function Counts(): map<Category, nat> {
      map[DevelopmentNews := |development|, BusinessSpotlights := |business|,
          CommunityStories := |community|, PlanningPolicy := |planning|]
    }
  }

  /** `by_category` has a key for every category, holding the length of that bucket. */
  lemma CountsAreLengths<T>(b: Buckets<T>, c: Category)
    ensures c in b.Counts() && b.Counts()[c] == |b.Get(c)|
  {
    match c
    case DevelopmentNews =>
    case BusinessSpotlights =>
    case CommunityStories =>
    case PlanningPolicy =>
  }

  function EmptyBuckets<T>(): Buckets<T> { Buckets([], [], [], []) }

  /** The items routed to bucket `c`, in accumulation order. */
  function InBucket(items: seq<Item>, c: Category): seq<Item> {
    if items == [] then []
    else InBucket(items[..|items| - 1], c)
         + (if BucketOf(items[|items| - 1]) == Some(c) then [items[|items| - 1]] else [])
  }

  /** The items whose category is none of the four keys: they reach no bucket. */
  function Unrecognised(items: seq<Item>): seq<Item> {
    if items == [] then []
    else Unrecognised(items[..|items| - 1])
         + (if BucketOf(items[|items| - 1]).None? then [items[|items| - 1]] else [])
  }

  /** `for item in items: category = item.get(...); if category in categories: categories[category].append(item)`. */
  method Organize(items: seq<Item>) returns (b: Buckets<Item>)
    ensures forall c :: b.Get(c) == InBucket(items, c)
  {
    b := EmptyBuckets();
    var i := 0;
    while i < |items|
      invariant 0 <= i <= |items|
      invariant forall c :: b.Get(c) == InBucket(items[..i], c)
    {
      var item := items[i];
      assert items[..i + 1][..i] == items[..i];
      var cat := BucketOf(item);
      if cat.Some? {
        b := b.Set(cat.value, b.Get(cat.value) + [item]);
      }
      i := i + 1;
    }
    assert items[..i] == items;
  }

  /** A bucket holds exactly the items whose category names it. */
  lemma {:induction false} InBucketMembers(items: seq<Item>, c: Category, x: Item)
    ensures x in InBucket(items, c) <==> x in items && BucketOf(x) == Some(c)
  {
    if items != [] {
      InBucketMembers(items[..|items| - 1], c, x);
      assert items == items[..|items| - 1] + [items[|items| - 1]];
    }
  }

  /** The buckets and the dropped items account for every accumulated item exactly once. */
  lemma {:induction false} BucketsAccount(items: seq<Item>)
    ensures |InBucket(items, DevelopmentNews)| + |InBucket(items, BusinessSpotlights)|
          + |InBucket(items, CommunityStories)| + |InBucket(items, PlanningPolicy)|
          + |Unrecognised(items)| == |items|
  {
    if items != [] {
      BucketsAccount(items[..|items| - 1]);
    }
  }

  /** Nothing is dropped exactly when every item's category is one of the four keys. */
  lemma {:induction false} UnrecognisedEmpty(items: seq<Item>)
    ensures Unrecognised(items) == [] <==> forall x :: x in items ==> BucketOf(x).Some?
  {
    if items != [] {
      UnrecognisedEmpty(items[..|items| - 1]);
      assert items == items[..|items| - 1] + [items[|items| - 1]];
    }
  }

  /** The buckets hold at most `total_items` items, and exactly that many precisely when every
      category is recognised. */
  lemma BucketTotal(items: seq<Item>, b: Buckets<Item>)
    requires forall c :: b.Get(c) == InBucket(items, c)
    ensures b.Size() <= |items|
    ensures b.Size() == |items| <==> forall x :: x in items ==> BucketOf(x).Some?
  {
    BucketsAccount(items);
    UnrecognisedEmpty(items);
    assert b.development == b.Get(DevelopmentNews) && b.business == b.Get(BusinessSpotlights);
    assert b.community == b.Get(CommunityStories) && b.planning == b.Get(PlanningPolicy);
  }

  /** The position of each category in the dictionary's iteration order. */
  function CategoryIndex(c: Category): (r: nat)
    ensures r < |AllCategories| && AllCategories[r] == c
  {
    match c
    case DevelopmentNews => 0
    case BusinessSpotlights => 1
    case CommunityStories => 2
    case PlanningPolicy => 3
  }

  /** `for category in categories: categories[category].sort(key=..., reverse=True)`. */
  method SortEach<T>(b: Buckets<T>, key: T -> int) returns (s: Buckets<T>)
    ensures forall c :: s.Get(c) == SortDesc(b.Get(c), key)
  {
    s := b;
    var k := 0;
    while k < |AllCategories|
      invariant 0 <= k <= |AllCategories|
      invariant forall c :: s.Get(c) == if CategoryIndex(c) < k then SortDesc(b.Get(c), key) else b.Get(c)
    {
      var c := AllCategories[k];
      assert CategoryIndex(c) == k;
      s := s.Set(c, SortDesc(s.Get(c), key));
      k := k + 1;
    }
  }

  /** A sorted bucket is in non-increasing score order, is a permutation of the items routed to
      it, and keeps accumulation order among equal scores. */
  lemma SortedBucket(items: seq<Item>, c: Category, k: int)
    ensures SortedDesc(SortDesc(InBucket(items, c), Score), Score)
    ensures multiset(SortDesc(InBucket(items, c), Score)) == multiset(InBucket(items, c))
    ensures WithKey(SortDesc(InBucket(items, c), Score), Score, k) == WithKey(InBucket(items, c), Score, k)
  {
    SortDescSorted(InBucket(items, c), Score);
    SortDescPermutes(InBucket(items, c), Score);
    SortDescStable(InBucket(items, c), Score, k);
  }

  /** `sorted(items, key=..., reverse=True)[:3]`: the top three overall, whatever their bucket. */
  function TopItems(items: seq<Item>): (r: seq<Item>)
    ensures |r| == if |items| < 3 then |items| else 3
  {
    var sorted := SortDesc(items, Score);
    sorted[..if |items| < 3 then |items| else 3]
  }

  /** The top three are the best: every item left out scores at most as high as each one taken,
      and all of them come from the accumulated items. */
  lemma TopItemsDominate(items: seq<Item>)
    ensures forall x :: x in TopItems(items) ==> x in items
    ensures forall i, j :: 0 <= i < |TopItems(items)| <= j < |items| ==>
              Score(SortDesc(items, Score)[j]) <= Score(TopItems(items)[i])
  {
    var n := |TopItems(items)|;
    PrefixDominates(items, Score, n);
    SortDescPermutes(items, Score);
    forall x | x in TopItems(items) ensures x in items {
      assert x in SortDesc(items, Score);
      assert x in multiset(SortDesc(items, Score));
    }
  }

  /** `sum(item.get('score', 0) for item in items)`. */
  function ScoreSum(items: seq<Item>): int {
    if items == [] then 0 else ScoreSum(items[..|items| - 1]) + Score(items[|items| - 1])
  }

  /** What the curation model's call gave back: the text of its first content block, or the
      message of the exception it raised. */
  datatype Reply = Replied(text: string) | CallFailed(message: string)

  /** `json.loads` followed by `.get('items', [])`: malformed text, or an object that may or may not
      hold an `items` list. */
  datatype Decoded = Malformed | Object(items: Option<seq<Item>>)

  /** The items one batch adds to the accumulator. */
  function Harvest(reply: Reply, stripFences: bool, decode: string -> Decoded): (r: seq<Item>)
    ensures reply.CallFailed? ==> r == []
    ensures reply.Replied? ==>
      var t := if stripFences then StripFences(reply.text) else reply.text;
      && (BraceSlice(t).None? ==> r == [])
      && (BraceSlice(t).Some? && decode(BraceSlice(t).value).Malformed? ==> r == [])
      && (BraceSlice(t).Some? && decode(BraceSlice(t).value).Object? ==>
            r == decode(BraceSlice(t).value).items.GetOr([]))
  {
    match reply
    case CallFailed(_) => []
    case Replied(text) =>
      var t := if stripFences then StripFences(text) else text;
      match BraceSlice(t)
      case None => []
      case Some(obj) =>
        match decode(obj)
        case Malformed => []
        case Object(items) => items.GetOr([])
  }
}
