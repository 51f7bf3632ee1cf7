/** The opportunity-list operation: the schema of its response and the flow. */
module PublicChannelContent {
  import opened Outcomes

  const Actions: seq<string> := ["buy", "sell"]

  /**
   * One trading opportunity. The three levels are numbers with no order
   * imposed among them; confidence and gain are free strings.
   */
  datatype TradingOpportunity = TradingOpportunity(
    asset: string,
    action: string,
    entryPoint: real,
    stopLoss: real,
    takeProfit: real,
    confidence: string,
    potentialGain: string,
    rationale: string)

  datatype ChannelContent = ChannelContent(opportunities: seq<TradingOpportunity>)

  /** The item schema: the action is `buy` or `sell`. */
  predicate ValidOpportunity(opportunity: TradingOpportunity)
  {
    opportunity.action in Actions
  }

  /** The response schema: exactly three opportunities, each valid. */
  predicate ValidContent(content: ChannelContent)
  {
    |content.opportunities| == 3
    && forall k :: 0 <= k < 3 ==> ValidOpportunity(content.opportunities[k])
  }

  const SchemaReason := "output does not match the response schema"

  /**
   * `generateTradingOpportunities`: what the prompt settled to, passed on only
   * when it is a response that matches the schema.
   */
  function GenerateTradingOpportunities(prompt: Call<Option<ChannelContent>>): (r: Call<ChannelContent>)
    ensures r.Success? <==> prompt.Success? && prompt.value.Some? && ValidContent(prompt.value.value)
    ensures r.Success? ==> r.value == prompt.value.value
    ensures prompt.Failure? ==> r == Failure(prompt.reason)
  {
    match prompt
    case Failure(reason) => Failure(reason)
    case Success(None) => Failure(SchemaReason)
    case Success(Some(content)) =>
      if ValidContent(content) then Success(content) else Failure(SchemaReason)
  }

  /**
   * The schema holds no promise of a high-gain item nor of ordered levels:
   * a valid response may have no `High` gain and a buy whose stop loss lies
   * above its take-profit.
   */
  lemma {:induction false} NoHighGainNorOrderRequired()
    ensures exists content :: (
      && ValidContent(content)
      && (forall k :: 0 <= k < 3 ==> content.opportunities[k].potentialGain != "High")
      && (forall k :: 0 <= k < 3 ==> content.opportunities[k].stopLoss > content.opportunities[k].takeProfit))
  {
    var item := TradingOpportunity("BTC", "buy", 100.0, 120.0, 90.0, "Low", "Low", "");
    var content := ChannelContent([item, item, item]);
    assert ValidOpportunity(item);
    assert ValidContent(content);
  }
}
