/** The planning scraper: an Ealing portal placeholder that finds nothing, a title filter over
    the first ten links of the OPDC register, a business filter that boosts and re-tags the
    applications it keeps, and the reformatting of applications into curation records. */
module PlanningScraper {
  import opened Wrappers
  import opened Text
  import opened Seqs
  import opened Findings

  const OpdcBase: string := "https://opdc.london.gov.uk"
  const LinkLimit: nat := 10
  const OpdcScore: int := 7
  const DefaultScore: int := 5
  const Boost: int := 2
  const ScoreCap: int := 10

  const TitleKeywords: seq<string> := ["old oak", "park royal", "business", "retail"]
  const BusinessKeywords: seq<string> := [
    "change of use", "a1", "a2", "a3", "a4", "a5",
    "retail", "restaurant", "cafe", "shop", "bar", "pub",
    "commercial", "business", "office", "warehouse"
  ]
  const BusinessRelevance: string := "Planning application indicating potential business activity"

  /** A planning application; `score` and `relevance` may be missing. */
  datatype App = App(title: string, url: string, source: string, category: string, date: string,
                     summary: string, score: Option<int>, relevance: Option<string>)

  /** `scrape_ealing_planning`: the portal search is a placeholder, so nothing is ever found. */
  function ScrapeEaling(): (r: seq<App>)
    ensures |r| == 0
  {
    []
  }

  /** An application link: its stripped text and its `href`. */
  datatype Link = Link(text: string, href: string)

  /** The register page: its status code and the application links on it, or an exception. */
  datatype PageFetch = Page(status: int, links: seq<Link>) | FetchRaised(message: string)

  /** The title names the area or a business use. */
  predicate TitleRelevant(l: Link) {
    ContainsAny(Lower(l.text), TitleKeywords)
  }

  /** The application recorded for a kept link, dated `today`. */
  function OpdcApp(l: Link, today: string): App {
    App(l.text, OpdcBase + l.href, "OPDC Planning", "planning_policy", today,
        "Planning application: " + l.text, Some(OpdcScore), None)
  }

  /** The applications of the kept links among the first ten, in link order. */
  function OpdcApps(links: seq<Link>, today: string): (r: seq<App>)
    ensures |r| <= |links|
  {
    if links == [] then []
    else
      var l := links[|links| - 1];
      OpdcApps(links[..|links| - 1], today) + (if TitleRelevant(l) then [OpdcApp(l, today)] else [])
  }

  /** `app_links[:10]`. */
  function FirstLinks(links: seq<Link>): (r: seq<Link>)
    ensures |r| <= LinkLimit && r <= links
  {
    links[..if |links| < LinkLimit then |links| else LinkLimit]
  }

  /** `scrape_opdc_planning`: nothing unless the page came back with status 200. */
  method ScrapeOpdc(fetch: PageFetch, today: string) returns (apps: seq<App>)
    ensures fetch.Page? && fetch.status == 200 ==> apps == OpdcApps(FirstLinks(fetch.links), today)
    ensures !(fetch.Page? && fetch.status == 200) ==> apps == []
    ensures |apps| <= LinkLimit
  {
    apps := [];
    match fetch {
      case FetchRaised(_) =>
      case Page(status, links) =>
        if status == 200 {
          var first := FirstLinks(links);
          var i := 0;
          while i < |first|
            invariant 0 <= i <= |first|
            invariant apps == OpdcApps(first[..i], today)
          {
            var link := first[i];
            assert first[..i + 1][..i] == first[..i];
            var title := link.text;
            if ContainsAny(Lower(title), TitleKeywords) {
              apps := apps + [App(title, OpdcBase + link.href, "OPDC Planning", "planning_policy", today,
                                  "Planning application: " + title, Some(OpdcScore), None)];
            }
            i := i + 1;
          }
          assert first[..i] == first;
        }
    }
  }

  /** A kept link is one whose title is relevant; its record has score 7, category
      `planning_policy` and the register's address before its `href`. */
  lemma {:induction false} OpdcAppsMeans(links: seq<Link>, today: string, a: App)
    ensures a in OpdcApps(links, today) <==> exists l :: l in links && TitleRelevant(l) && a == OpdcApp(l, today)
    ensures a in OpdcApps(links, today) ==>
      a.score == Some(OpdcScore) && a.category == "planning_policy" && a.url[..|OpdcBase|] == OpdcBase
  {
    if links != [] {
      var j := |links| - 1;
      OpdcAppsMeans(links[..j], today, a);
      assert links == links[..j] + [links[j]];
    }
  }

  /** The lowercased title and summary the business keywords are searched in. */
  function AppText(a: App): string {
    Lower(a.title + " " + a.summary)
  }

  predicate BusinessRelated(a: App) {
    ContainsAny(AppText(a), BusinessKeywords)
  }

  /** `min(app.get('score', 5) + 2, 10)`. */
  function BoostedScore(previous: Option<int>): (r: int)
    ensures r <= ScoreCap
    ensures r >= previous.GetOr(DefaultScore) || previous.GetOr(DefaultScore) > ScoreCap
    ensures r == ScoreCap || r == previous.GetOr(DefaultScore) + Boost
    ensures previous.GetOr(DefaultScore) + Boost <= ScoreCap ==> r == previous.GetOr(DefaultScore) + Boost
  {
    var s := previous.GetOr(DefaultScore) + Boost;
    if s <= ScoreCap then s else ScoreCap
  }

  /** A kept application after its in-place update. */
  function Boosted(a: App): App {
    a.(score := Some(BoostedScore(a.score)), category := "business_spotlights", relevance := Some(BusinessRelevance))
  }

  /** The updated business applications, in input order. */
  function BusinessApps(apps: seq<App>): (r: seq<App>)
    ensures |r| <= |apps|
  {
    if apps == [] then []
    else
      var a := apps[|apps| - 1];
      BusinessApps(apps[..|apps| - 1]) + (if BusinessRelated(a) then [Boosted(a)] else [])
  }

  /** The filter loop of `check_business_planning_applications`, over the given applications. */
  method FilterBusiness(apps: seq<App>) returns (business: seq<App>)
    ensures business == BusinessApps(apps)
  {
    business := [];
    var i := 0;
    while i < |apps|
      invariant 0 <= i <= |apps|
      invariant business == BusinessApps(apps[..i])
    {
      var app := apps[i];
      assert apps[..i + 1][..i] == apps[..i];
      var content := Lower(app.title + " " + app.summary);
      if ContainsAny(content, BusinessKeywords) {
        app := app.(score := Some(BoostedScore(app.score)));
        app := app.(category := "business_spotlights");
        app := app.(relevance := Some(BusinessRelevance));
        business := business + [app];
      }
      i := i + 1;
    }
    assert apps[..i] == apps;
  }

  /** `check_business_planning_applications`: the OPDC applications followed by the Ealing
      ones, filtered and boosted. */
  method CheckBusinessPlanningApplications(fetch: PageFetch, today: string) returns (business: seq<App>)
    ensures fetch.Page? && fetch.status == 200 ==>
      business == BusinessApps(OpdcApps(FirstLinks(fetch.links), today) + ScrapeEaling())
    ensures !(fetch.Page? && fetch.status == 200) ==> business == []
    ensures |business| <= LinkLimit
  {
    var opdc := ScrapeOpdc(fetch, today);
    var ealing := ScrapeEaling();
    business := FilterBusiness(opdc + ealing);
    assert opdc + ealing == opdc;
  }

  /** The business filter keeps, in order, exactly the business-related applications, each
      re-tagged `business_spotlights` with a score no lower than before (missing counting as 5)
      and never above 10; everything else about it is unchanged. */
  lemma {:induction false} BusinessAppsMeans(apps: seq<App>, b: App)
    ensures b in BusinessApps(apps) <==> exists a :: a in apps && BusinessRelated(a) && b == Boosted(a)
    ensures b in BusinessApps(apps) ==> b.category == "business_spotlights" && b.score.Some? && b.score.value <= ScoreCap
  {
    if apps != [] {
      var j := |apps| - 1;
      BusinessAppsMeans(apps[..j], b);
      assert apps == apps[..j] + [apps[j]];
    }
  }

  /** Filtering distributes over concatenation: the OPDC applications keep their place before
      the Ealing ones. */
  lemma {:induction false} BusinessAppsConcat(a: seq<App>, b: seq<App>)
    ensures BusinessApps(a + b) == BusinessApps(a) + BusinessApps(b)
    decreases |b|
  {
    if b == [] {
      assert a + b == a;
    } else {
      var j := |b| - 1;
      assert (a + b)[..|a + b| - 1] == a + b[..j];
      assert (a + b)[|a + b| - 1] == b[j];
      BusinessAppsConcat(a, b[..j]);
    }
  }

  /** An OPDC application that passes the business filter scores 9. */
  lemma OpdcBusinessScore(l: Link, today: string)
    ensures BoostedScore(OpdcApp(l, today).score) == OpdcScore + Boost
  {
  }

  /** `format_planning_for_curation` for one application. */
  function PlanningRecord(a: App): SearchRecord {
    SearchRecord("Planning: " + a.source, a.category, "Planning application monitoring",
                 Found(SearchResults(ItemContent(a.title, a.date, a.summary, a.url), [a.url], "planning")), 1, None)
  }

  /** `format_planning_for_curation`: one record per application, in order. */
  function FormatPlanningForCuration(apps: seq<App>): (r: seq<SearchRecord>)
    ensures |r| == |apps|
  {
    seq(|apps|, k requires 0 <= k < |apps| => PlanningRecord(apps[k]))
  }

  /** Formatting is a map: it distributes over concatenation, and each record's query names the
      application's source, its only citation is its URL, and it counts one result. */
  lemma FormatPlanningFacts(a: seq<App>, b: seq<App>, k: nat)
    ensures FormatPlanningForCuration(a + b) == FormatPlanningForCuration(a) + FormatPlanningForCuration(b)
    ensures k < |a| ==>
      var r := FormatPlanningForCuration(a)[k];
      && r.query[..10] == "Planning: " && r.query[10..] == a[k].source
      && r.category == a[k].category && r.resultCount == 1 && r.error.None?
      && r.results.Found? && r.results.found.citations == [a[k].url] && r.results.found.source == "planning"
  {
  }
}
