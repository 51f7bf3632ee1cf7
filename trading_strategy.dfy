/**
 * The trading-strategy operation: the schemas of its request and response,
 * and the flow that puts a fixed explanation in place when the model leaves
 * the `explainableAI` object out.
 */
module TradingStrategy {
  import opened Outcomes

  /** The two vocabularies of the request schema, case-sensitive. */
  const AssetTypes: seq<string> := ["crypto", "options", "forex"]
  const RiskAppetites: seq<string> := ["low", "medium", "high"]

  /** The request. The three text fields carry no constraint. */
  datatype StrategyInput = StrategyInput(
    marketData: string,
    technicalIndicators: string,
    macroeconomicFactors: string,
    assetType: string,
    riskAppetite: string)

  /** The request schema: only the two enumerations constrain it. */
  predicate ValidInput(input: StrategyInput)
  {
    input.assetType in AssetTypes && input.riskAppetite in RiskAppetites
  }

  /** The explainability object of the response. */
  datatype Explanation = Explanation(
    wyckoffPhase: string,
    keyFactors: seq<string>,
    confidenceLevel: real,
    alternativeStrategies: string)

  /** A response as the model returns it; `explainableAI` may be absent. */
  datatype StrategyOutput = StrategyOutput(
    strategy: string,
    rationale: string,
    riskAssessment: string,
    explainableAI: Option<Explanation>)

  /** The response schema: all four fields present. */
  predicate ValidOutput(output: StrategyOutput)
  {
    output.explainableAI.Some?
  }

  const InvalidInputReason := "input does not match the request schema"
  const NoOutputReason := "TypeError: the prompt returned no output"

  /**
   * The explanation the flow substitutes: phase `Markup`, three key factors,
   * confidence 0.75 (inside the 0-1 range the schema describes) and the fixed
   * list of alternatives.
   */
  function DefaultExplanation(): (e: Explanation)
    ensures e.wyckoffPhase == "Markup"
    ensures |e.keyFactors| == 3
    ensures 0.0 <= e.confidenceLevel <= 1.0
  {
    Explanation(
      "Markup",
      ["Technical Alignment", "Volume Confirmation", "Sentiment Analysis"],
      0.75,
      "Conservative (Low Risk), Moderate (Medium Risk), Aggressive (High Risk)")
  }

  /**
   * `generateTradingStrategyFlow`. The request is checked against its schema
   * before the prompt runs; `prompt` is what the prompt call settled to, with
   * `None` for a null output. A null output makes the assignment through
   * `output!` throw; an output without `explainableAI` gets the default one in
   * place; an output that has it is returned as it came.
   */
  method GenerateTradingStrategyFlow(input: StrategyInput, prompt: Call<Option<StrategyOutput>>)
    returns (r: Call<StrategyOutput>)
    ensures !ValidInput(input) ==> r == Failure(InvalidInputReason)
    ensures ValidInput(input) && prompt.Failure? ==> r == Failure(prompt.reason)
    ensures ValidInput(input) && prompt == Success(None) ==> r == Failure(NoOutputReason)
    ensures r.Success? <==> ValidInput(input) && prompt.Success? && prompt.value.Some?
    ensures r.Success? ==> ValidOutput(r.value)
    ensures r.Success? && prompt.value.value.explainableAI.Some? ==> r.value == prompt.value.value
    ensures r.Success? && prompt.value.value.explainableAI.None? ==>
      r.value == prompt.value.value.(explainableAI := Some(DefaultExplanation()))
  {
    if !ValidInput(input) {
      return Failure(InvalidInputReason);
    }
    if prompt.Failure? {
      return Failure(prompt.reason);
    }
    if prompt.value.None? {
      return Failure(NoOutputReason);
    }
    var output := prompt.value.value;
    if output.explainableAI.None? {
      output := output.(explainableAI := Some(DefaultExplanation()));
    }
    r := Success(output);
  }
}
