/** The `web_search` tool offered to the developer agent: it runs the search service
    and always answers with text, a "no results" sentence, a numbered list, or an
    error sentence; a failed search never escapes as an error. */
module GoogleWebSearchTool {
  import opened Results
  import Text
  import GoogleSearchService

  type SearchResult = GoogleSearchService.SearchResult

  const ToolName: string := "web_search"

  const NoResultsPrefix: string := "No se encontraron resultados para \""
  const HeaderPrefix: string := "Resultados de búsqueda para \""
  const ErrorPrefix: string := "Error al buscar \""
  const EntrySeparator: string := "\n\n"

  /** The sentence returned for an empty result list. */
  function NoResultsText(query: string): string
  {
    NoResultsPrefix + query + "\"."
  }

  /** The first line of a result list. */
  function Header(query: string): string
  {
    HeaderPrefix + query + "\":"
  }

  /** The block for the result at 1-based `position`: number, bold title, then the
      snippet and the link on indented lines. */
  function Entry(position: nat, r: SearchResult): string
  {
    Text.NatToDecimal(position) + ". **" + r.title + "**\n   " + r.snippet + "\n   " + r.link
  }

  /** One block per result, numbered from 1 in search order. */
  function Entries(results: seq<SearchResult>): seq<string>
  {
    seq(|results|, i requires 0 <= i < |results| => Entry(i + 1, results[i]))
  }

  /** The sentence returned when the search failed with `message`. */
  function ErrorText(query: string, message: string): string
  {
    ErrorPrefix + query + "\": " + message
  }

  /** The text `execute` returns for a search outcome. */
  function FormatOutcome(query: string, outcome: Result<seq<SearchResult>>): (text: string)
    ensures outcome.Err? ==> text == ErrorText(query, outcome.message)
    ensures outcome == Ok([]) ==> text == NoResultsText(query)
    ensures outcome.Ok? && |outcome.value| > 0 ==>
              text == Header(query) + EntrySeparator + Text.Join(Entries(outcome.value), EntrySeparator)
  {
    match outcome
    case Err(message) => ErrorText(query, message)
    case Ok(results) =>
      if |results| == 0 then NoResultsText(query)
      else Header(query) + EntrySeparator + Text.Join(Entries(results), EntrySeparator)
  }

  /** The tool's `execute`: `fetched` is the decoded response body, or the message of
      the error the request or the decoding threw. */
  function Execute(query: string, fetched: Result<GoogleSearchService.SearchResponse>): (text: string)
    ensures fetched.Err? ==> text == ErrorText(query, fetched.message)
    ensures fetched.Ok? && fetched.value.error.Some? ==>
              text == ErrorText(query, GoogleSearchService.ErrorMessage(fetched.value.error.value))
    ensures (fetched.Ok? && fetched.value.error.None?
             && (fetched.value.items.None? || fetched.value.items == Some([])))
      ==> text == NoResultsText(query)
  {
    match fetched
    case Err(message) => FormatOutcome(query, Err(message))
    case Ok(response) => FormatOutcome(query, GoogleSearchService.Search(response))
  }

  /** A single result is the header and one block numbered 1. */
  lemma FormatSingle(query: string, r: SearchResult)
    ensures FormatOutcome(query, Ok([r])) == Header(query) + EntrySeparator + Entry(1, r)
  {
    assert Entries([r]) == [Entry(1, r)];
  }

  /** One more result adds exactly one separator and one block, numbered after the others;
      the blocks already there stay as they were. */
  lemma FormatAppend(query: string, results: seq<SearchResult>, r: SearchResult)
    requires |results| >= 1
    ensures FormatOutcome(query, Ok(results + [r]))
            == FormatOutcome(query, Ok(results)) + EntrySeparator + Entry(|results| + 1, r)
  {
    assert Entries(results + [r]) == Entries(results) + [Entry(|results| + 1, r)];
    Text.JoinSnoc(Entries(results), Entry(|results| + 1, r), EntrySeparator);
  }

  /** Which of the three answers a text is, read off its opening words. */
  datatype AnswerKind = NoResults | ResultList | SearchFailed | Unrecognised

  predicate StartsWith(s: string, prefix: string)
  {
    |prefix| <= |s| && s[..|prefix|] == prefix
  }

  function Classify(text: string): AnswerKind
  {
    if StartsWith(text, NoResultsPrefix) then NoResults
    else if StartsWith(text, HeaderPrefix) then ResultList
    else if StartsWith(text, ErrorPrefix) then SearchFailed
    else Unrecognised
  }

  /** The three answers cannot be confused: the agent can tell from the text alone
      whether the search failed, found nothing, or found results. */
  lemma ClassifyRecoversOutcome(query: string, outcome: Result<seq<SearchResult>>)
    ensures Classify(FormatOutcome(query, outcome))
            == if outcome.Err? then SearchFailed
               else if outcome.value == [] then NoResults
               else ResultList
  {
    var text := FormatOutcome(query, outcome);
    assert NoResultsPrefix[0] == 'N' && HeaderPrefix[0] == 'R' && ErrorPrefix[0] == 'E';
    match outcome
    case Err(message) =>
      assert text == ErrorPrefix + (query + "\": " + message);
      assert text[..|ErrorPrefix|] == ErrorPrefix;
      assert text[0] == 'E';
      assert !StartsWith(text, NoResultsPrefix) by {
        assert |NoResultsPrefix| <= |text| ==> text[..|NoResultsPrefix|][0] == 'E';
      }
      assert !StartsWith(text, HeaderPrefix) by {
        assert |HeaderPrefix| <= |text| ==> text[..|HeaderPrefix|][0] == 'E';
      }
    case Ok(results) =>
      if results == [] {
        assert text == NoResultsPrefix + (query + "\".");
        assert text[..|NoResultsPrefix|] == NoResultsPrefix;
      } else {
        assert text == HeaderPrefix + (query + "\":" + EntrySeparator + Text.Join(Entries(results), EntrySeparator));
        assert text[..|HeaderPrefix|] == HeaderPrefix;
        assert text[0] == 'R';
        assert !StartsWith(text, NoResultsPrefix) by {
          assert |NoResultsPrefix| <= |text| ==> text[..|NoResultsPrefix|][0] == 'R';
        }
      }
  }

  /** Each block's number reads back as its 1-based position. */
  lemma EntryNumberReadsBack(results: seq<SearchResult>, i: nat)
    requires i < |results|
    ensures var digits := Text.NatToDecimal(i + 1);
            Entries(results)[i][..|digits|] == digits && Text.DecimalValue(digits) == i + 1
  {
    Text.DecimalRoundTrip(i + 1);
  }

  /** A search with no results, whether `items` is missing or empty, answers with the
      "no results" sentence for the query, not an error. */
  lemma NoResultsIsNotAnError(query: string)
    ensures Execute(query, Ok(GoogleSearchService.SearchResponse(None, Some([]))))
            == "No se encontraron resultados para \"" + query + "\"."
    ensures Execute(query, Ok(GoogleSearchService.SearchResponse(None, None)))
            == "No se encontraron resultados para \"" + query + "\"."
  {
  }
}
