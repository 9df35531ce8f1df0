/** The shapes the search side hands to curation: the blocks of a model response, the outcome of
    one search call, and the per-query search record that the perplexity revision builds and that
    the RSS and planning formatters imitate. */
module Findings {
  import opened Wrappers

  /** One content block of a model response; only text blocks carry text. */
  datatype Block = TextBlock(text: string) | OtherBlock

  /** What one web-search call to the model gave back, or the message of the exception it raised. */
  datatype SearchCall = Answered(blocks: seq<Block>) | SearchRaised(message: string)

  /** The texts of the text blocks, in block order. */
  function Texts(blocks: seq<Block>): seq<string> {
    if blocks == [] then []
    else Texts(blocks[..|blocks| - 1])
         + (match blocks[|blocks| - 1] case TextBlock(t) => [t] case OtherBlock => [])
  }

  /** Number of text blocks. */
  function CountText(blocks: seq<Block>): nat {
    if blocks == [] then 0
    else CountText(blocks[..|blocks| - 1]) + (if blocks[|blocks| - 1].TextBlock? then 1 else 0)
  }

  lemma {:induction false} TextsCount(blocks: seq<Block>)
    ensures |Texts(blocks)| == CountText(blocks)
  {
    if blocks != [] {
      TextsCount(blocks[..|blocks| - 1]);
    }
  }

  /** `{"content": ..., "citations": [...], "source": ...}`. */
  datatype SearchResults = SearchResults(content: string, citations: seq<string>, source: string)

  /** The `results` value of a record: that dictionary, or `[]` after a failed search. */
  datatype Results = Found(found: SearchResults) | NoResults

  /** `{"query", "category", "focus", "results", "result_count"[, "error"]}`. */
  datatype SearchRecord = SearchRecord(
    query: string,
    category: string,
    focus: string,
    results: Results,
    resultCount: nat,
    error: Option<string>)

  /** `f"Title: {title}\nDate: {date}\nSummary: {summary}\nURL: {url}"`, the content the RSS and
      planning formatters give each record. */
  function ItemContent(title: string, date: string, summary: string, url: string): string {
    "Title: " + title + "\nDate: " + date + "\nSummary: " + summary + "\nURL: " + url
  }
}
