/** The first revision of the discovery script: four queries searched with no error handling,
    then one curation call that names only the first two queries and slices the reply from the
    first `{` to the last `}` without checking that either exists. */
module FirstDiscovery {
  import opened Wrappers
  import opened Text
  import opened Extraction
  import opened Curation

  const SearchQueries: seq<string> := [
    "Old Oak Common HS2 news last 7 days",
    "Old Oak station construction update",
    "Park Royal regeneration news",
    "Old Oak Common local business news"
  ]

  /** The message of indexing an empty list. */
  const EmptyIndex: string := "IndexError: list index out of range"
  const NoSecondQuery: string := "N/A"

  /** `{"query": ..., "response": str(response.content)}`. */
  datatype RawResult = RawResult(query: string, response: string)

  /** The search call for one query: the printed content of its reply, or what it raised. */
  datatype RawCall = Responded(content: string) | RawRaised(message: string)

  /** The results of the query loop, or the exception of the first search that raised. */
  function RawResults(queries: seq<string>, search: (nat, string) -> RawCall): Result<seq<RawResult>> {
    if queries == [] then Success([])
    else
      var j := |queries| - 1;
      match RawResults(queries[..j], search)
      case Failure(e) => Failure(e)
      case Success(prev) =>
        match search(j, queries[j])
        case RawRaised(m) => Failure(m)
        case Responded(c) => Success(prev + [RawResult(queries[j], c)])
  }

  /** The loop completes exactly when no search raised, with one result per query in order;
      otherwise it ends with the message of the first search that raised. */
  lemma {:induction false} RawResultsMeans(queries: seq<string>, search: (nat, string) -> RawCall)
    ensures RawResults(queries, search).Success? <==>
              forall i | 0 <= i < |queries| :: search(i, queries[i]).Responded?
    ensures RawResults(queries, search).Success? ==>
              var rs := RawResults(queries, search).value;
              |rs| == |queries| && forall i | 0 <= i < |queries| ::
                rs[i] == RawResult(queries[i], search(i, queries[i]).content)
    ensures RawResults(queries, search).Failure? ==>
              exists i :: 0 <= i < |queries| && search(i, queries[i]) == RawRaised(RawResults(queries, search).error)
                && forall j | 0 <= j < i :: search(j, queries[j]).Responded?
  {
    if queries != [] {
      var j := |queries| - 1;
      assert forall k | 0 <= k < j :: queries[..j][k] == queries[k];
      RawResultsMeans(queries[..j], search);
    }
  }

  /** `for query in search_queries: response = ...; all_results.append(...)`: an exception in
      any search ends the run. */
  method RunSearches(queries: seq<string>, search: (nat, string) -> RawCall) returns (r: Result<seq<RawResult>>)
    ensures r == RawResults(queries, search)
  {
    var results: seq<RawResult> := [];
    var i := 0;
    while i < |queries|
      invariant 0 <= i <= |queries|
      invariant RawResults(queries[..i], search) == Success(results)
    {
      assert queries[..i + 1][..i] == queries[..i];
      match search(i, queries[i]) {
        case RawRaised(m) =>
          RawResultsAbort(queries, search, i + 1);
          return Failure(m);
        case Responded(c) =>
          results := results + [RawResult(queries[i], c)];
      }
      i := i + 1;
    }
    assert queries[..i] == queries;
    r := Success(results);
  }

  /** Once the loop has raised, the later queries do not change the outcome. */
  lemma {:induction false} RawResultsAbort(queries: seq<string>, search: (nat, string) -> RawCall, n: nat)
    requires n <= |queries| && RawResults(queries[..n], search).Failure?
    ensures RawResults(queries, search) == RawResults(queries[..n], search)
    decreases |queries| - n
  {
    if n < |queries| {
      assert queries[..n + 1][..n] == queries[..n];
      RawResultsAbort(queries, search, n + 1);
    } else {
      assert queries[..n] == queries;
    }
  }

  /** The two query slots of the prompt (lines 57-68): the first two queries, `'N/A'` when
      there is only one, and `IndexError` when there are none. */
  function PromptQueries(raw: seq<RawResult>): (r: Result<(string, string)>)
    ensures r.Failure? <==> raw == []
    ensures r.Success? ==> r.value.0 == raw[0].query
    ensures r.Success? ==> r.value.1 == if |raw| > 1 then raw[1].query else NoSecondQuery
  {
    var simplified := raw[..if |raw| < 2 then |raw| else 2];
    if |simplified| == 0 then Failure(EmptyIndex)
    else Success((simplified[0].query, if |simplified| > 1 then simplified[1].query else NoSecondQuery))
  }

  /** Only the queries of the first two results reach the model: not their responses, and
      nothing from the third result on. */
  lemma PromptUsesFirstTwo(raw: seq<RawResult>, other: seq<RawResult>)
    requires |raw| == |other| || (|raw| >= 2 && |other| >= 2)
    requires forall i | 0 <= i < 2 && i < |raw| :: raw[i].query == other[i].query
    ensures PromptQueries(raw) == PromptQueries(other)
  {
  }

  /** `{"title": ..., "summary": ...}` of the fallback item. */
  datatype Note = Note(title: string, summary: string)

  /** What `curate_results` returns: the decoded document unchanged, or the fixed fallback. */
  datatype Outcome<D> = Decoded(doc: D) | Fallback(categories: map<string, seq<Note>>, weekSummary: string)

  /** The fallback: only a `development_news` bucket with one placeholder item, a fixed summary
      and no `top_stories`. */
  function FallbackOutcome<D>(): Outcome<D> {
    Fallback(map["development_news" := [Note("Error parsing results", "Check logs")]],
             "Content discovery ran but results need manual review")
  }

  /** `curate_results`: with no results `[0]` raises; the model call, which lies outside the
      `try`, raises through; otherwise the unguarded slice of the reply is decoded and returned
      unchanged, and any decoding error gives the fallback. */
  function CurateResults<D>(raw: seq<RawResult>, curator: (string, string) -> Reply,
                            decode: string -> Option<D>): (r: Result<Outcome<D>>)
    ensures raw == [] ==> r == Failure(EmptyIndex)
    ensures raw != [] ==>
      var reply := curator(raw[0].query, if |raw| > 1 then raw[1].query else NoSecondQuery);
      && (reply.CallFailed? ==> r == Failure(reply.message))
      && (reply.Replied? ==> r.Success?)
      && (reply.Replied? && decode(UnguardedSlice(reply.text)).Some? ==>
            r == Success(Decoded(decode(UnguardedSlice(reply.text)).value)))
      && (reply.Replied? && decode(UnguardedSlice(reply.text)).None? ==> r == Success(FallbackOutcome()))
  {
    match PromptQueries(raw)
    case Failure(e) => Failure(e)
    case Success(qs) =>
      match curator(qs.0, qs.1)
      case CallFailed(m) => Failure(m)
      case Replied(text) =>
        match decode(UnguardedSlice(text))
        case None => Success(FallbackOutcome())
        case Some(d) => Success(Decoded(d))
  }

  /** Wherever the guarded revisions would decode, this one hands the decoder the same
      substring. */
  lemma AgreesWithGuarded<D>(raw: seq<RawResult>, curator: (string, string) -> Reply,
                             decode: string -> Option<D>)
    requires raw != [] && curator(PromptQueries(raw).value.0, PromptQueries(raw).value.1).Replied?
    ensures var text := curator(PromptQueries(raw).value.0, PromptQueries(raw).value.1).text;
      BraceSlice(text).Some? ==>
        CurateResults(raw, curator, decode) ==
          Success(match decode(BraceSlice(text).value) case None => FallbackOutcome() case Some(d) => Decoded(d))
  {
  }

  /** Without a `{` before a `}` the decoder only ever sees `""` or `"}"`; a decoder that rejects
      both, as any JSON decoder does, yields the fallback. */
  lemma NoObjectFallsBack<D>(raw: seq<RawResult>, curator: (string, string) -> Reply,
                             decode: string -> Option<D>)
    requires raw != [] && curator(PromptQueries(raw).value.0, PromptQueries(raw).value.1).Replied?
    requires decode("").None? && decode("}").None?
    requires !OpensBeforeCloses(curator(PromptQueries(raw).value.0, PromptQueries(raw).value.1).text)
    ensures CurateResults(raw, curator, decode) == Success(FallbackOutcome())
  {
    BraceSliceDecision(curator(PromptQueries(raw).value.0, PromptQueries(raw).value.1).text);
  }

  /** The fallback holds one bucket and no top stories, and its one item is the placeholder. */
  lemma FallbackShape<D>()
    ensures var f: Outcome<D> := FallbackOutcome();
      f.Fallback? && f.categories.Keys == {"development_news"}
      && |f.categories["development_news"]| == 1
      && f.categories["development_news"][0].title == "Error parsing results"
  {
  }

  /** `discover_content`: the searches, then curation of what they returned. */
  method DiscoverContent<D>(search: (nat, string) -> RawCall, curator: (string, string) -> Reply,
                            decode: string -> Option<D>)
    returns (curated: Result<Outcome<D>>)
    ensures RawResults(SearchQueries, search).Failure? ==> curated == Failure(RawResults(SearchQueries, search).error)
    ensures RawResults(SearchQueries, search).Success? ==>
              curated == CurateResults(RawResults(SearchQueries, search).value, curator, decode)
  {
    var raw := RunSearches(SearchQueries, search);
    if raw.Failure? {
      return Failure(raw.error);
    }
    curated := CurateResults(raw.value, curator, decode);
  }
}
