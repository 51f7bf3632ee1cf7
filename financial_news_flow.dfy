/** The news-digest operation: the schema of its response and the flow. */
module FinancialNewsFlow {
  import opened Outcomes

  /** The category vocabulary of the schema. `Advertisement` is not in it. */
  const NewsCategories: seq<string> := ["Markets", "Crypto", "Stocks", "Economy", "Technology"]
  const MediaTypes: seq<string> := ["image", "video"]

  /** One news item; the strings are required but may be empty. */
  datatype NewsItem = NewsItem(
    title: string,
    source: string,
    time: string,
    category: string,
    imageHint: string,
    mediaType: Option<string>)

  datatype NewsOutput = NewsOutput(newsItems: seq<NewsItem>)

  /** The item schema: a category from the vocabulary, and an optional media type. */
  predicate ValidNewsItem(item: NewsItem)
  {
    && item.category in NewsCategories
    && (item.mediaType.Some? ==> item.mediaType.value in MediaTypes)
  }

  /** The response schema: exactly five items, each valid. */
  predicate ValidNewsOutput(output: NewsOutput)
  {
    |output.newsItems| == 5 && forall k :: 0 <= k < 5 ==> ValidNewsItem(output.newsItems[k])
  }

  const SchemaReason := "output does not match the response schema"

  /**
   * `fetchFinancialNews`: what the prompt settled to, passed on only when it
   * is a response that matches the schema.
   */
  function FetchFinancialNews(prompt: Call<Option<NewsOutput>>): (r: Call<NewsOutput>)
    ensures r.Success? <==> prompt.Success? && prompt.value.Some? && ValidNewsOutput(prompt.value.value)
    ensures r.Success? ==> r.value == prompt.value.value
    ensures prompt.Failure? ==> r == Failure(prompt.reason)
  {
    match prompt
    case Failure(reason) => Failure(reason)
    case Success(None) => Failure(SchemaReason)
    case Success(Some(output)) =>
      if ValidNewsOutput(output) then Success(output) else Failure(SchemaReason)
  }

  /** The schema accepts empty strings and asks for no sponsored item. */
  lemma {:induction false} PlainDigestAccepted()
    ensures exists output :: (
      && ValidNewsOutput(output)
      && (forall k :: 0 <= k < |output.newsItems| ==> output.newsItems[k].title == "")
      && (forall k :: 0 <= k < |output.newsItems| ==> output.newsItems[k].category != "Advertisement"))
  {
    var item := NewsItem("", "", "", "Markets", "", None);
    var output := NewsOutput([item, item, item, item, item]);
    assert ValidNewsItem(item);
    assert ValidNewsOutput(output);
  }

  /** An item labelled `Advertisement` does not match the item schema. */
  lemma AdvertisementOutsideSchema(item: NewsItem)
    requires item.category == "Advertisement"
    ensures !ValidNewsItem(item)
  {
  }
}
