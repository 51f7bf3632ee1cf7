/**
 * The news carousel on the dashboard: the advertisement override applied to
 * the fetched items, and the `newsItems` / `isLoading` state of `getNews`.
 * The random draw that picks a media type is a parameter.
 */
module FinancialNewsWidget {
  import opened Outcomes
  import opened Toasts
  import opened JsString
  import opened FinancialNewsFlow

  /** The source whose items are shown as advertisements, compared in lower case. */
  const Sponsor := "gainezis-fintrade"
  const AdvertisementCategory := "Advertisement"
  const FailedToastTitle := "Failed to fetch news"

  predicate IsSponsored(item: NewsItem)
  {
    ToLower(item.source) == Sponsor
  }

  /** The comparison ignores case: the source in capitals is sponsored exactly when the source is. */
  lemma SponsorInAnyCase(item: NewsItem)
    ensures IsSponsored(item.(source := ToUpper(item.source))) <==> IsSponsored(item)
  {
    LowerIgnoresCase(item.source);
  }

  /**
   * The override for one item: a sponsored item becomes an advertisement and
   * keeps its media type; any other item keeps its category and gets `video`
   * when the draw exceeds 0.7, `image` otherwise.
   */
  function Decorate(item: NewsItem, draw: real): (shown: NewsItem)
    ensures shown.title == item.title && shown.source == item.source && shown.time == item.time
    ensures shown.imageHint == item.imageHint
    ensures shown.category == AdvertisementCategory <==> IsSponsored(item) || item.category == AdvertisementCategory
    ensures IsSponsored(item) ==> shown.mediaType == item.mediaType
    ensures !IsSponsored(item) ==> shown.category == item.category
    ensures !IsSponsored(item) ==> shown.mediaType == Some(if draw > 0.7 then "video" else "image")
  {
    if IsSponsored(item) then item.(category := AdvertisementCategory)
    else item.(mediaType := Some(if draw > 0.7 then "video" else "image"))
  }

  /** `result.newsItems.map(...)`: each item decorated with its own draw, same length and order. */
  function WithAdvertisement(items: seq<NewsItem>, draws: nat -> real): (shown: seq<NewsItem>)
    ensures |shown| == |items|
    ensures forall k :: 0 <= k < |items| ==> shown[k] == Decorate(items[k], draws(k))
  {
    seq(|items|, k requires 0 <= k < |items| => Decorate(items[k], draws(k)))
  }

  /** The category badge uses the destructive variant. */
  predicate BadgeDestructive(item: NewsItem)
  {
    item.category == AdvertisementCategory
  }

  /**
   * On a response that matches the schema, the destructive badge marks
   * exactly the sponsored items: no schema category is `Advertisement`.
   */
  lemma BadgeMarksSponsored(output: NewsOutput, draws: nat -> real, k: int)
    requires ValidNewsOutput(output) && 0 <= k < 5
    ensures BadgeDestructive(WithAdvertisement(output.newsItems, draws)[k]) <==> IsSponsored(output.newsItems[k])
  {
    assert ValidNewsItem(output.newsItems[k]);
  }

  /**
   * Every non-sponsored item of a valid response shows a media type from the
   * schema's vocabulary, and keeps its schema category.
   */
  lemma DecoratedStaysInVocabulary(output: NewsOutput, draws: nat -> real, k: int)
    requires ValidNewsOutput(output) && 0 <= k < 5
    requires !IsSponsored(output.newsItems[k])
    ensures ValidNewsItem(WithAdvertisement(output.newsItems, draws)[k])
  {
    assert ValidNewsItem(output.newsItems[k]);
  }

  /** The widget's state. */
  class NewsWidget {
    var newsItems: seq<NewsItem>
    var isLoading: bool
    var toasts: seq<Toast>

    /** Mounted: no items yet, and loading. */
    constructor ()
      ensures newsItems == [] && isLoading && toasts == []
    {
      newsItems, isLoading, toasts := [], true, [];
    }

    /** The skeleton cards replace the carousel while loading. */
    predicate ShowsSkeleton()
      reads this
    {
      isLoading
    }

    /** `getNews` up to the awaited fetch. */
    method BeginGetNews()
      modifies this
      ensures isLoading
      ensures newsItems == old(newsItems) && toasts == old(toasts)
    {
      isLoading := true;
    }

    /**
     * `getNews` after the fetch settles: on success the decorated items
     * replace the list; on failure the list is kept and a destructive toast
     * is raised. Loading ends either way.
     */
    method FinishGetNews(answer: Call<NewsOutput>, draws: nat -> real)
      modifies this
      ensures !isLoading
      ensures answer.Success? ==> newsItems == WithAdvertisement(answer.value.newsItems, draws) && toasts == old(toasts)
      ensures answer.Failure? ==>
        newsItems == old(newsItems) && toasts == old(toasts) + [Toast(FailedToastTitle, true)]
    {
      if answer.Success? {
        newsItems := WithAdvertisement(answer.value.newsItems, draws);
      } else {
        toasts := toasts + [Toast(FailedToastTitle, true)];
      }
      isLoading := false;
    }
  }
}
