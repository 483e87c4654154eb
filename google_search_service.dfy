/** What the search service does with the custom-search API's decoded JSON body:
    an `error` member becomes a thrown error, a missing or empty `items` list becomes
    no results, and otherwise the first three items are cut down to title, snippet
    and link. */
module GoogleSearchService {
  import opened Results
  import Text

  /** The `error` member of a failed API response. */
  datatype ApiError = ApiError(code: nat, message: string)

  /** One entry of `items`; `otherFields` stands for the members the service drops
      (`kind`, `displayLink`, `htmlSnippet`, `pagemap`, ...). */
  datatype Item = Item(title: string, snippet: string, link: string, otherFields: map<string, string>)

  /** The decoded response body; an absent member is `None`. */
  datatype SearchResponse = SearchResponse(error: Option<ApiError>, items: Option<seq<Item>>)

  /** One search result as the service returns it. */
  datatype SearchResult = SearchResult(title: string, snippet: string, link: string)

  /** The `slice(0, 3)` bound. */
  const MaxResults: nat := 3

  /** The message of the error thrown for an `error` member. */
  function ErrorMessage(e: ApiError): string
  {
    "Google API error: " + Text.NatToDecimal(e.code) + " - " + e.message
  }

  /** The projection applied by `map`: exactly the three displayed fields. */
  function Project(item: Item): (r: SearchResult)
    ensures r.title == item.title && r.snippet == item.snippet && r.link == item.link
  {
    SearchResult(item.title, item.snippet, item.link)
  }

  /** The post-fetch part of `search`. */
  function Search(response: SearchResponse): (r: Result<seq<SearchResult>>)
    ensures response.error.Some? ==> r == Err(ErrorMessage(response.error.value))
    ensures response.error.None? ==> r.Ok?
    ensures r.Ok? && response.items.None? ==> r.value == []
    ensures r.Ok? && response.items.Some? ==> |r.value| == Text.Min(MaxResults, |response.items.value|)
    ensures r.Ok? ==> forall i | 0 <= i < |r.value| ::
              response.items.Some? && r.value[i] == Project(response.items.value[i])
  {
    if response.error.Some? then
      Err(ErrorMessage(response.error.value))
    else if response.items.None? || |response.items.value| == 0 then
      Ok([])
    else
      var items := response.items.value;
      var n := Text.Min(MaxResults, |items|);
      Ok(seq(n, i requires 0 <= i < n => Project(items[i])))
  }

  /** The error member is checked first: whatever `items` holds does not matter. */
  lemma ErrorTakesPrecedence(e: ApiError, items: Option<seq<Item>>)
    ensures Search(SearchResponse(Some(e), items)) == Search(SearchResponse(Some(e), None))
    ensures Search(SearchResponse(Some(e), items)).Err?
  {
  }

  /** Items after the third never influence the result. */
  lemma LaterItemsIgnored(items: seq<Item>, more: seq<Item>)
    requires |items| >= MaxResults
    ensures Search(SearchResponse(None, Some(items + more))) == Search(SearchResponse(None, Some(items)))
  {
    var a := Search(SearchResponse(None, Some(items + more))).value;
    var b := Search(SearchResponse(None, Some(items))).value;
    assert |a| == |b| == MaxResults;
    forall i | 0 <= i < MaxResults ensures a[i] == b[i] {
      assert (items + more)[i] == items[i];
    }
    assert a == b;
  }

  /** Only title, snippet and link of an item matter: items that agree on them give
      the same results whatever their other members. */
  lemma OnlyDisplayedFieldsMatter(xs: seq<Item>, ys: seq<Item>)
    requires |xs| == |ys|
    requires forall i | 0 <= i < |xs| :: Project(xs[i]) == Project(ys[i])
    ensures Search(SearchResponse(None, Some(xs))) == Search(SearchResponse(None, Some(ys)))
  {
    var a := Search(SearchResponse(None, Some(xs)));
    var b := Search(SearchResponse(None, Some(ys)));
    assert |a.value| == |b.value|;
    forall i | 0 <= i < |a.value| ensures a.value[i] == b.value[i] {
    }
    assert a.value == b.value;
  }
}
