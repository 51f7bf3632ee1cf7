/** The records of the trade-execution operation; the operation itself is a parameter. */
module AutonomousTradeExecution {
  import opened Outcomes

  datatype ExecutionInput = ExecutionInput(
    strategy: string,
    asset: string,
    riskPercentage: real,
    stopLossPercentage: real,
    takeProfitPercentage: real,
    apiKey: string,
    apiSecret: string,
    isActive: Option<bool>)

  datatype ExecutionOutput = ExecutionOutput(tradeStatus: string, profitLoss: real, message: string)
}

/**
 * The autonomous-trading form: its validation, the guards of `onSubmit`, and
 * the `isLoading` state around the execution call.
 */
module AutonomousTrade {
  import opened Outcomes
  import opened Toasts
  import opened AutonomousTradeExecution
  import opened JsString

  /** The submitted values; the two keys are optional. */
  datatype FormValues = FormValues(
    isActive: bool,
    strategy: string,
    asset: string,
    riskPercentage: real,
    stopLossPercentage: real,
    takeProfitPercentage: real,
    apiKey: Option<string>,
    apiSecret: Option<string>)

  predicate Percentage(x: real)
  {
    0.1 <= x <= 100.0
  }

  /**
   * The form schema: a strategy of JavaScript length 10 or more, an asset of
   * 2 or more (both in UTF-16 code units), and three percentages.
   */
  predicate ValidForm(values: FormValues)
  {
    && Utf16Length(values.strategy) >= 10
    && Utf16Length(values.asset) >= 2
    && Percentage(values.riskPercentage)
    && Percentage(values.stopLossPercentage)
    && Percentage(values.takeProfitPercentage)
  }

  /** `!value` on an optional string: missing or empty. */
  predicate Blank(value: Option<string>)
  {
    value.None? || value.value == ""
  }

  const DeactivatedTitle := "Autonomous Mode Deactivated"
  const KeysRequiredTitle := "API Keys Required"
  const ExecutedTitle := "Trade Executed"
  const FailedTitle := "Execution Failed"

  /** How a submission is disposed of. */
  datatype SubmitOutcome = Rejected | Deactivated | KeysRequired | Execute(request: ExecutionInput)

  /**
   * The guards in order: the form schema, then the active switch, then the
   * keys. Only an active submission with both keys non-empty is executed,
   * with the form values passed through.
   */
  function Guard(values: FormValues): (outcome: SubmitOutcome)
    ensures outcome == Rejected <==> !ValidForm(values)
    ensures outcome == Deactivated <==> ValidForm(values) && !values.isActive
    ensures outcome == KeysRequired <==>
      (ValidForm(values) && values.isActive && (Blank(values.apiKey) || Blank(values.apiSecret)))
    ensures outcome.Execute? <==>
      (ValidForm(values) && values.isActive && !Blank(values.apiKey) && !Blank(values.apiSecret))
    ensures outcome.Execute? ==> outcome.request == ExecutionInput(
      values.strategy, values.asset, values.riskPercentage, values.stopLossPercentage,
      values.takeProfitPercentage, values.apiKey.value, values.apiSecret.value, Some(true))
  {
    if !ValidForm(values) then Rejected
    else if !values.isActive then Deactivated
    else if Blank(values.apiKey) || Blank(values.apiSecret) then KeysRequired
    else Execute(ExecutionInput(
      values.strategy, values.asset, values.riskPercentage, values.stopLossPercentage,
      values.takeProfitPercentage, values.apiKey.value, values.apiSecret.value, Some(true)))
  }

  /** The active switch is checked before the keys: switched off, missing keys do not matter. */
  lemma DeactivationBeforeKeys(values: FormValues)
    requires ValidForm(values) && !values.isActive
    ensures Guard(values) == Deactivated
    ensures Guard(values.(apiKey := None, apiSecret := None)) == Deactivated
  {
  }

  /** Any executed request carries two non-empty keys and percentages in range. */
  lemma ExecutedRequestWellFormed(values: FormValues)
    requires Guard(values).Execute?
    ensures var r := Guard(values).request;
      r.apiKey != "" && r.apiSecret != "" && Utf16Length(r.strategy) >= 10 && Utf16Length(r.asset) >= 2
      && Percentage(r.riskPercentage) && Percentage(r.stopLossPercentage) && Percentage(r.takeProfitPercentage)
  {
  }

  /** Lengths count code units: five emoji are a strategy of length 10, enough for the schema. */
  lemma FiveEmojiStrategy(e: char)
    requires e as int >= 0x1_0000
    ensures Utf16Length([e, e, e, e, e]) == 10
  {
    var one := [e];
    AstralLength(e);
    Utf16LengthAppend(one, one);
    Utf16LengthAppend(one + one, one + one);
    Utf16LengthAppend(one + one + (one + one), one);
    assert [e, e, e, e, e] == one + one + (one + one) + one;
  }

  const DefaultStrategy := "Execute a mean reversion strategy on the 15-minute chart, buying on dips below the 20-period EMA and selling on rallies above."
  const Defaults := FormValues(false, DefaultStrategy, "BTC/USD", 1.0, 2.0, 4.0, Some(""), Some(""))

  /** The form's default values pass the schema but, switched off, only deactivate. */
  lemma DefaultsDeactivate()
    ensures Guard(Defaults) == Deactivated
  {
  }

  /** The widget's state. */
  class TradeWidget {
    var isLoading: bool
    var toasts: seq<Toast>
    var executions: seq<ExecutionInput>

    constructor ()
      ensures !isLoading && toasts == [] && executions == []
    {
      isLoading, toasts, executions := false, [], [];
    }

    /**
     * `form.handleSubmit(onSubmit)` up to the awaited execution: an invalid
     * form does nothing, an early return raises its toast, and an executed
     * submission starts loading and records the request.
     */
    method Submit(values: FormValues) returns (started: bool)
      modifies this
      ensures started <==> Guard(values).Execute?
      ensures match Guard(values)
        case Rejected =>
          isLoading == old(isLoading) && toasts == old(toasts) && executions == old(executions)
        case Deactivated =>
          isLoading == old(isLoading) && executions == old(executions)
          && toasts == old(toasts) + [Toast(DeactivatedTitle, false)]
        case KeysRequired =>
          isLoading == old(isLoading) && executions == old(executions)
          && toasts == old(toasts) + [Toast(KeysRequiredTitle, true)]
        case Execute(request) =>
          isLoading && toasts == old(toasts) && executions == old(executions) + [request]
    {
      if !ValidForm(values) {
        return false;
      }
      if !values.isActive {
        toasts := toasts + [Toast(DeactivatedTitle, false)];
        return false;
      }
      if Blank(values.apiKey) || Blank(values.apiSecret) {
        toasts := toasts + [Toast(KeysRequiredTitle, true)];
        return false;
      }
      isLoading := true;
      var request := ExecutionInput(
        values.strategy, values.asset, values.riskPercentage, values.stopLossPercentage,
        values.takeProfitPercentage, values.apiKey.value, values.apiSecret.value, Some(true));
      executions := executions + [request];
      started := true;
    }

    /** After the execution settles: its toast, and loading ends either way. */
    method FinishExecution(answer: Call<ExecutionOutput>)
      modifies this
      ensures !isLoading && executions == old(executions)
      ensures answer.Success? ==> toasts == old(toasts) + [Toast(ExecutedTitle, false)]
      ensures answer.Failure? ==> toasts == old(toasts) + [Toast(FailedTitle, true)]
    {
      if answer.Success? {
        toasts := toasts + [Toast(ExecutedTitle, false)];
      } else {
        toasts := toasts + [Toast(FailedTitle, true)];
      }
      isLoading := false;
    }
  }
}
