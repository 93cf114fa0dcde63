/**
 * The two-step intake wizard. Step 1 is the mindset check (the emotional-state answer and a
 * market description, with an explicit override for an emotional answer); step 2 takes the
 * trade details and, when both gates pass, emits the new trade. `window.confirm` is the
 * `confirmed` argument of `Next`.
 */
module Wizard {
  import opened Wrappers
  import opened Types
  import opened Strings

  const AnswerRequired := "请回答情绪检查问题。"
  const ContextRequired := "请描述市场背景。"
  const PricesRequired := "入场价和止损价为必填项。"
  const ExitRequired := "如果已平仓，请填写平仓价格。"

  datatype Step = Step1 | Step2

  /** The wizard's inputs. A price box that is empty is None. */
  datatype WizardForm = WizardForm(
    isEmotional: Option<bool>,   // unset until a button is pressed
    marketContext: string,
    isKeyLevel: bool,
    confidence: int,
    style: TradeStyle,
    asset: Asset,
    timeframe: string,
    entryCandleNumber: string,
    strategy: Strategy,
    orderType: OrderType,
    direction: Direction,
    entryPrice: Option<Price>,
    stopLoss: Option<Price>,
    takeProfit: Option<Price>,
    chartImage: Option<string>,
    status: TradeStatus,         // CLOSED: the trade is logged after the fact, with its exit
    exitPrice: Option<Price>,
    exitCandleNumber: string
  )

  function InitialForm(): (f: WizardForm)
    ensures f.isEmotional.None? && f.marketContext == "" && f.confidence == 50 && f.status == Open
    ensures f.entryPrice.None? && f.stopLoss.None? && f.takeProfit.None? && f.exitPrice.None?
    ensures f.chartImage.None? && f.entryCandleNumber == "" && f.exitCandleNumber == ""
  {
    WizardForm(None, "", false, 50, ScalpStyle, ES, "1m", "", TrendFollow, Market, Long,
               None, None, None, None, Open, None, "")
  }

  datatype Step1Outcome = Blocked(message: string) | Declined | Advanced

  /**
   * The step-1 gates in order: an answer, then a non-blank market description, then the
   * override when the answer is "emotional".
   */
  function Step1Gate(answer: Option<bool>, context: string, confirmed: bool): (o: Step1Outcome)
    ensures answer.None? ==> o == Blocked(AnswerRequired)
    ensures answer.Some? && Trim(context) == [] ==> o == Blocked(ContextRequired)
    ensures o == Declined <==> answer == Some(true) && Trim(context) != [] && !confirmed
    ensures o == Advanced <==> answer.Some? && Trim(context) != [] && (answer.value ==> confirmed)
  {
    if answer.None? then Blocked(AnswerRequired)
    else if Trim(context) == [] then Blocked(ContextRequired)
    else if answer.value && !confirmed then Declined
    else Advanced
  }

  /** The step-2 gates in order: entry and stop present, then an exit when logging a closed trade. */
  function Step2Gate(f: WizardForm): (error: Option<string>)
    ensures f.entryPrice.None? || f.stopLoss.None? ==> error == Some(PricesRequired)
    ensures f.entryPrice.Some? && f.stopLoss.Some? && f.status == Closed && f.exitPrice.None? ==>
      error == Some(ExitRequired)
    ensures error.None? <==> f.entryPrice.Some? && f.stopLoss.Some? && (f.status == Closed ==> f.exitPrice.Some?)
  {
    if f.entryPrice.None? || f.stopLoss.None? then Some(PricesRequired)
    else if f.status == Closed && f.exitPrice.None? then Some(ExitRequired)
    else None
  }

  /**
   * The trade the wizard hands to the journal. Its id and timestamp are placeholders that the
   * journal overwrites; every other field comes from the form.
   */
  function BuildTrade(f: WizardForm, date: string): (t: Trade)
    requires Step2Gate(f).None?
    ensures t.date == date && t.status == f.status && t.direction == f.direction
    ensures t.entryPrice == f.entryPrice.value && t.stopLoss == f.stopLoss.value && t.takeProfit == f.takeProfit
    ensures t.isEmotional <==> f.isEmotional == Some(true)
    ensures t.exitPrice == f.exitPrice
    ensures t.exitCandleNumber == (if f.exitCandleNumber == "" then None else Some(f.exitCandleNumber))
    ensures t.entryCandleNumber == Some(f.entryCandleNumber)
    ensures t.marketContext == f.marketContext && t.isKeyLevel == f.isKeyLevel && t.confidence == f.confidence
    ensures t.style == f.style && t.asset == f.asset && t.timeframe == f.timeframe
    ensures t.strategy == f.strategy && t.orderType == f.orderType && t.chartImage == f.chartImage
    ensures f.status == Closed ==> t.pnlPoints == Some(Pnl(f.direction, t.entryPrice, f.exitPrice.value))
    ensures f.status == Open ==> t.pnlPoints.None?
    ensures ClosedConsistent(t)
    ensures t.aiFeedback.None? && t.aiScore.None? && t.userNotes.None? && t.isDeleted.None?
  {
    var pnl := if f.status == Closed && f.exitPrice.Some?
               then Some((f.exitPrice.value - f.entryPrice.value) * Sign(f.direction))
               else None;
    Trade(
      id := "", date := date, timestamp := 0,
      isEmotional := f.isEmotional.GetOr(false), marketContext := f.marketContext,
      isKeyLevel := f.isKeyLevel, confidence := f.confidence, style := f.style,
      asset := f.asset, timeframe := f.timeframe, entryCandleNumber := Some(f.entryCandleNumber),
      strategy := f.strategy, orderType := f.orderType, direction := f.direction,
      entryPrice := f.entryPrice.value, stopLoss := f.stopLoss.value, takeProfit := f.takeProfit,
      status := f.status, exitPrice := f.exitPrice,
      exitCandleNumber := if f.exitCandleNumber == "" then None else Some(f.exitCandleNumber),
      pnlPoints := pnl, chartImage := f.chartImage,
      aiFeedback := None, aiScore := None, userNotes := None, isDeleted := None)
  }

  /** An OPEN trade still carries an exit price whenever one was typed. */
  lemma OpenTradeKeepsTypedExit(f: WizardForm, date: string)
    requires Step2Gate(f).None? && f.status == Open && f.exitPrice.Some?
    ensures BuildTrade(f, date).status == Open && BuildTrade(f, date).exitPrice.Some?
  {
  }

  class TradeWizard {
    const selectedDate: string
    var step: Step
    var error: string
    var form: WizardForm   // the input handlers assign this directly

    constructor (selectedDate: string)
      ensures this.selectedDate == selectedDate
      ensures step == Step1 && error == "" && form == InitialForm()
    {
      this.selectedDate := selectedDate;
      step := Step1;
      error := "";
      form := InitialForm();
    }

    /**
     * The Next / Save button. Step 2 builds the record field by field as the handler does; its
     * ensures ties the result to `BuildTrade`, the one definition the lemmas above are about.
     */
    method Next(confirmed: bool) returns (emitted: Option<Trade>)
      modifies this`step, this`error
      ensures old(step) == Step1 ==> emitted.None? && match Step1Gate(form.isEmotional, form.marketContext, confirmed)
        case Blocked(m) => step == Step1 && error == m
        case Declined => step == Step1 && error == old(error)
        case Advanced => step == Step2 && error == ""
      ensures old(step) == Step2 ==> step == Step2 && match Step2Gate(form)
        case Some(m) => emitted.None? && error == m
        case None => emitted == Some(BuildTrade(form, selectedDate)) && error == old(error)
    {
      emitted := None;
      if step == Step1 {
        if form.isEmotional.None? {
          error := AnswerRequired;
          return;
        }
        if Trim(form.marketContext) == [] {
          error := ContextRequired;
          return;
        }
        if form.isEmotional == Some(true) {
          if !confirmed {
            return;
          }
        }
        error := "";
        step := Step2;
      } else {
        if form.entryPrice.None? || form.stopLoss.None? {
          error := PricesRequired;
          return;
        }
        if form.status == Closed && form.exitPrice.None? {
          error := ExitRequired;
          return;
        }
        var pnl: Option<Price> := None;
        if form.status == Closed && form.exitPrice.Some? {
          var multiplier := if form.direction == Long then 1 else -1;
          pnl := Some((form.exitPrice.value - form.entryPrice.value) * multiplier);
        }
        var t := Trade(
          id := "", date := selectedDate, timestamp := 0,
          isEmotional := form.isEmotional.GetOr(false), marketContext := form.marketContext,
          isKeyLevel := form.isKeyLevel, confidence := form.confidence, style := form.style,
          asset := form.asset, timeframe := form.timeframe,
          entryCandleNumber := Some(form.entryCandleNumber),
          strategy := form.strategy, orderType := form.orderType, direction := form.direction,
          entryPrice := form.entryPrice.value, stopLoss := form.stopLoss.value,
          takeProfit := form.takeProfit, status := form.status, exitPrice := form.exitPrice,
          exitCandleNumber := if form.exitCandleNumber == "" then None else Some(form.exitCandleNumber),
          pnlPoints := pnl, chartImage := form.chartImage,
          aiFeedback := None, aiScore := None, userNotes := None, isDeleted := None);
        emitted := Some(t);
      }
    }
  }
}
