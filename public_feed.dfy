/**
 * The public-channel feed on the dashboard: the `opportunities` / `isLoading`
 * state of `fetchOpportunities`, what the card area shows, and the two
 * styling flags of a card.
 */
module PublicFeed {
  import opened Outcomes
  import opened Toasts
  import opened PublicChannelContent

  const FailedToastTitle := "Failed to fetch opportunities"

  /** The card is styled as a buy exactly when the action is `buy`. */
  predicate IsBuy(opp: TradingOpportunity)
  {
    opp.action == "buy"
  }

  /** The flame icon shows exactly when the gain is the string `High`. */
  predicate IsHighGain(opp: TradingOpportunity)
  {
    opp.potentialGain == "High"
  }

  /** On a schema-valid opportunity the styling is buy, or else the action is `sell`. */
  lemma SellStyling(opp: TradingOpportunity)
    requires ValidOpportunity(opp)
    ensures !IsBuy(opp) <==> opp.action == "sell"
  {
  }

  /** The spinner replaces the cards only while loading with nothing to show. */
  predicate ShowsSpinner(isLoading: bool, opportunities: seq<TradingOpportunity>)
  {
    isLoading && |opportunities| == 0
  }

  /** One rendered card: the opportunity with its badge style and whether the flame shows. */
  datatype CardView = CardView(opp: TradingOpportunity, buyStyled: bool, flame: bool)

  /** What the card area holds: the spinner, or the cards in list order. */
  datatype CardArea = Spinner | Cards(cards: seq<CardView>)

  /** `OpportunityCard`: the badge follows `isBuy`, the flame follows `isHighGain`. */
  function CardOf(opp: TradingOpportunity): (view: CardView)
    ensures view.opp == opp
    ensures view.buyStyled <==> opp.action == "buy"
    ensures view.flame <==> opp.potentialGain == "High"
  {
    CardView(opp, IsBuy(opp), IsHighGain(opp))
  }

  /** `opportunities.map(...)`: one card per opportunity, same length and order. */
  function CardsOf(opportunities: seq<TradingOpportunity>): (cards: seq<CardView>)
    ensures |cards| == |opportunities|
    ensures forall k :: 0 <= k < |cards| ==> cards[k] == CardOf(opportunities[k])
  {
    seq(|opportunities|, k requires 0 <= k < |opportunities| => CardOf(opportunities[k]))
  }

  /**
   * The card area: the spinner exactly while loading with an empty list;
   * otherwise the cards of the whole list, which may be none at all.
   */
  function CardAreaOf(isLoading: bool, opportunities: seq<TradingOpportunity>): (area: CardArea)
    ensures area == Spinner <==> isLoading && |opportunities| == 0
    ensures area.Cards? ==>
      |area.cards| == |opportunities| && forall k :: 0 <= k < |opportunities| ==> area.cards[k].opp == opportunities[k]
    ensures !isLoading ==> area == Cards(CardsOf(opportunities))
  {
    if ShowsSpinner(isLoading, opportunities) then Spinner else Cards(CardsOf(opportunities))
  }

  /**
   * A response that matches the schema shows three cards, each with the buy
   * badge or else the action `sell`, and its flame exactly when its gain is
   * `High`.
   */
  lemma ValidContentCards(content: ChannelContent)
    requires ValidContent(content)
    ensures CardAreaOf(false, content.opportunities).Cards?
    ensures |CardAreaOf(false, content.opportunities).cards| == 3
    ensures forall k :: 0 <= k < 3 ==>
      var card := CardAreaOf(false, content.opportunities).cards[k];
      && (card.buyStyled || content.opportunities[k].action == "sell")
      && (card.flame <==> content.opportunities[k].potentialGain == "High")
  {
    forall k | 0 <= k < 3
      ensures ValidOpportunity(content.opportunities[k])
    {
    }
  }

  /** The schema does not promise a flame: a valid response may show none. */
  lemma NoFlameRequired()
    ensures exists content :: (
      && ValidContent(content)
      && forall k :: 0 <= k < 3 ==> !CardAreaOf(false, content.opportunities).cards[k].flame)
  {
    NoHighGainNorOrderRequired();
    var content :| (
      && ValidContent(content)
      && (forall k :: 0 <= k < 3 ==> content.opportunities[k].potentialGain != "High")
      && (forall k :: 0 <= k < 3 ==> content.opportunities[k].stopLoss > content.opportunities[k].takeProfit));
    ValidContentCards(content);
  }

  /** The widget's state. */
  class FeedWidget {
    var opportunities: seq<TradingOpportunity>
    var isLoading: bool
    var toasts: seq<Toast>

    /** Mounted: no opportunities yet, and loading. */
    constructor ()
      ensures opportunities == [] && isLoading && toasts == []
    {
      opportunities, isLoading, toasts := [], true, [];
    }

    /** The refresh button is disabled while loading. */
    predicate ButtonDisabled()
      reads this
    {
      isLoading
    }

    /**
     * `fetchOpportunities` up to the awaited call. The list is untouched, so
     * a refetch keeps the previous cards on screen.
     */
    method BeginFetch()
      modifies this
      ensures isLoading && opportunities == old(opportunities) && toasts == old(toasts)
      ensures CardAreaOf(isLoading, opportunities) == Spinner <==> |old(opportunities)| == 0
      ensures |old(opportunities)| > 0 ==> CardAreaOf(isLoading, opportunities) == Cards(CardsOf(old(opportunities)))
    {
      isLoading := true;
    }

    /**
     * `fetchOpportunities` after the call settles: the returned list on
     * success; on failure a destructive toast and the empty list. Loading
     * ends either way.
     */
    method FinishFetch(answer: Call<ChannelContent>)
      modifies this
      ensures !isLoading
      ensures answer.Success? ==> opportunities == answer.value.opportunities && toasts == old(toasts)
      ensures answer.Failure? ==> opportunities == [] && toasts == old(toasts) + [Toast(FailedToastTitle, true)]
      ensures CardAreaOf(isLoading, opportunities) == Cards(CardsOf(opportunities))
    {
      if answer.Success? {
        opportunities := answer.value.opportunities;
      } else {
        toasts := toasts + [Toast(FailedToastTitle, true)];
        opportunities := [];
      }
      isLoading := false;
    }
  }
}
