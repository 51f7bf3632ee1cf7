/**
 * The strategy form on the dashboard: its validation and the
 * `isLoading` / `result` state of `onSubmit`.
 */
module StrategyGenerator {
  import opened Outcomes
  import opened Toasts
  import opened TradingStrategy
  import opened JsString

  /** The form schema: both enumerations, and the three texts of JavaScript length 1 or more. */
  predicate ValidForm(values: StrategyInput)
  {
    && values.assetType in AssetTypes
    && values.riskAppetite in RiskAppetites
    && Utf16Length(values.marketData) >= 1
    && Utf16Length(values.technicalIndicators) >= 1
    && Utf16Length(values.macroeconomicFactors) >= 1
  }

  /** Length 1 or more means non-empty, whatever the characters. */
  lemma FormNeedsNonEmptyTexts(values: StrategyInput)
    ensures ValidForm(values) <==>
      && values.assetType in AssetTypes && values.riskAppetite in RiskAppetites
      && values.marketData != "" && values.technicalIndicators != "" && values.macroeconomicFactors != ""
  {
  }

  /** The form is stricter than the operation's request schema, so a submitted form is always accepted. */
  lemma FormMeetsRequestSchema(values: StrategyInput)
    requires ValidForm(values)
    ensures ValidInput(values)
  {
  }

  /** The request schema accepts empty texts that the form refuses. */
  lemma RequestSchemaIsLooser()
    ensures ValidInput(StrategyInput("", "", "", "crypto", "low"))
    ensures !ValidForm(StrategyInput("", "", "", "crypto", "low"))
  {
  }

  const GeneratedTitle := "Strategy Generated"
  const FailedTitle := "Generation Failed"

  /** The widget's state. */
  class StrategyWidget {
    var isLoading: bool
    var result: Option<StrategyOutput>
    var toasts: seq<Toast>
    var requests: seq<StrategyInput>

    constructor ()
      ensures !isLoading && result.None? && toasts == [] && requests == []
    {
      isLoading, result, toasts, requests := false, None, [], [];
    }

    /** The result panel renders only when there is a result. */
    predicate ResultPanelVisible()
      reads this
    {
      result.Some?
    }

    /**
     * `form.handleSubmit(onSubmit)` up to the awaited call: an invalid form
     * does nothing; otherwise loading starts, the previous result is cleared
     * and the values are sent.
     */
    method Submit(values: StrategyInput) returns (started: bool)
      modifies this
      ensures started <==> ValidForm(values)
      ensures !started ==>
        isLoading == old(isLoading) && result == old(result) && toasts == old(toasts) && requests == old(requests)
      ensures started ==>
        isLoading && result.None? && toasts == old(toasts) && requests == old(requests) + [values]
    {
      if !ValidForm(values) {
        return false;
      }
      isLoading := true;
      result := None;
      requests := requests + [values];
      started := true;
    }

    /**
     * After the call settles: the response becomes the result with a toast;
     * on failure a destructive toast and the result stays cleared. Loading
     * ends either way.
     */
    method Finish(answer: Call<StrategyOutput>)
      modifies this
      ensures !isLoading && requests == old(requests)
      ensures answer.Success? ==> result == Some(answer.value) && toasts == old(toasts) + [Toast(GeneratedTitle, false)]
      ensures answer.Failure? ==> result == old(result) && toasts == old(toasts) + [Toast(FailedTitle, true)]
    {
      if answer.Success? {
        result := Some(answer.value);
        toasts := toasts + [Toast(GeneratedTitle, false)];
      } else {
        toasts := toasts + [Toast(FailedTitle, true)];
      }
      isLoading := false;
    }
  }

  /**
   * A whole submission: a failed call leaves no result panel, and a
   * successful one shows the response.
   */
  method SubmitAndSettle(w: StrategyWidget, values: StrategyInput, answer: Call<StrategyOutput>)
    requires ValidForm(values)
    modifies w
    ensures !w.isLoading
    ensures w.ResultPanelVisible() <==> answer.Success?
    ensures answer.Success? ==> w.result == Some(answer.value)
  {
    var started := w.Submit(values);
    w.Finish(answer);
  }
}
