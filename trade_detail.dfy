/**
 * The detail view of one trade: closing it, saving edits, editing notes, attaching the AI
 * coach's result, and the planned risk/reward figure. Each handler hands a complete new
 * record to the journal's update; the record-to-record functions below say exactly which
 * fields each one sets and which it keeps.
 */
module TradeDetail {
  import opened Wrappers
  import opened Types

  // ----- closing -----

  /**
   * Closing the trade at the typed exit price (None: the box is empty, and nothing is emitted).
   * The trade becomes CLOSED with the exit, the exit bar, the notes and the pnl that exit implies.
   */
  function CloseTrade(t: Trade, exitInput: Option<Price>, exitCandleInput: string, notesInput: string)
    : (r: Option<Trade>)
    ensures r.None? <==> exitInput.None?
    ensures r.Some? ==>
      && r.value.status == Closed
      && r.value.exitPrice == exitInput
      && r.value.exitCandleNumber == Some(exitCandleInput)
      && r.value.userNotes == Some(notesInput)
      && r.value.pnlPoints == Some(Pnl(t.direction, t.entryPrice, exitInput.value))
      && ClosedConsistent(r.value)
      && OnlyChanged(t, r.value, {StatusField, ExitPriceField, ExitCandleField, PnlField, UserNotesField})
  {
    if exitInput.None? then None
    else
      var exit := exitInput.value;
      var pnl := (exit - t.entryPrice) * Sign(t.direction);
      Some(t.(status := Closed, exitPrice := Some(exit), exitCandleNumber := Some(exitCandleInput),
              pnlPoints := Some(pnl), userNotes := Some(notesInput)))
  }

  /** Closing again with the same inputs changes nothing further. */
  lemma CloseIdempotent(t: Trade, exitInput: Price, exitCandleInput: string, notesInput: string)
    ensures var c := CloseTrade(t, Some(exitInput), exitCandleInput, notesInput).value;
      CloseTrade(c, Some(exitInput), exitCandleInput, notesInput) == Some(c)
  {
  }

  /** Closing a long and a short at the same prices books opposite results. */
  lemma CloseLongShortOpposite(t: Trade, exit: Price, exitCandleInput: string, notesInput: string)
    ensures CloseTrade(t.(direction := Long), Some(exit), exitCandleInput, notesInput).value.pnlPoints.value
         == -CloseTrade(t.(direction := Short), Some(exit), exitCandleInput, notesInput).value.pnlPoints.value
  {
  }

  // ----- saving edits -----

  /** The edit-mode inputs. Entry and stop are numbers; an empty take-profit box is None. */
  datatype EditForm = EditForm(
    date: string,
    entryPrice: Price,
    stopLoss: Price,
    takeProfit: Option<Price>,
    strategy: Strategy,
    style: TradeStyle,
    entryCandleNumber: string,
    exitCandleNumber: string,
    marketContext: string,
    isEmotional: bool,
    confidence: int,
    chartImage: Option<string>
  )

  /** The inputs as the view fills them in from the stored trade (empty text for a missing bar number). */
  function FormOf(t: Trade): (f: EditForm)
    ensures f.entryPrice == t.entryPrice && f.stopLoss == t.stopLoss && f.takeProfit == t.takeProfit
    ensures f.entryCandleNumber == t.entryCandleNumber.GetOr("") && f.exitCandleNumber == t.exitCandleNumber.GetOr("")
  {
    EditForm(t.date, t.entryPrice, t.stopLoss, t.takeProfit, t.strategy, t.style,
             t.entryCandleNumber.GetOr(""), t.exitCandleNumber.GetOr(""),
             t.marketContext, t.isEmotional, t.confidence, t.chartImage)
  }

  const EditableFields: set<Field> :=
    {DateField, EntryPriceField, StopLossField, TakeProfitField, StrategyField, StyleField,
     EntryCandleField, ExitCandleField, MarketContextField, IsEmotionalField, ConfidenceField,
     ChartImageField}

  /**
   * Saving an edit recomputes pnl only for a CLOSED trade whose exit price is truthy,
   * i.e. present and non-zero.
   */
  predicate RecomputesPnl(t: Trade)
    ensures RecomputesPnl(t) <==> t.status == Closed && !Falsy(t.exitPrice)
  {
    t.status == Closed && t.exitPrice.Some? && t.exitPrice.value != 0
  }

  /** The record the save handler hands on. */
  function Edited(t: Trade, f: EditForm): (r: Trade)
    ensures OnlyChanged(t, r, EditableFields + {PnlField})
    ensures r.date == f.date && r.entryPrice == f.entryPrice && r.stopLoss == f.stopLoss
    ensures r.takeProfit == f.takeProfit && r.strategy == f.strategy && r.style == f.style
    ensures r.entryCandleNumber == Some(f.entryCandleNumber) && r.exitCandleNumber == Some(f.exitCandleNumber)
    ensures r.marketContext == f.marketContext && r.isEmotional == f.isEmotional
    ensures r.confidence == f.confidence && r.chartImage == f.chartImage
    ensures RecomputesPnl(t) ==> r.pnlPoints == Some(Pnl(t.direction, f.entryPrice, t.exitPrice.value))
    ensures !RecomputesPnl(t) ==> r.pnlPoints == t.pnlPoints
  {
    var u := t.(date := f.date, entryPrice := f.entryPrice, stopLoss := f.stopLoss,
                takeProfit := f.takeProfit, strategy := f.strategy, style := f.style,
                entryCandleNumber := Some(f.entryCandleNumber),
                exitCandleNumber := Some(f.exitCandleNumber),
                marketContext := f.marketContext, isEmotional := f.isEmotional,
                confidence := f.confidence, chartImage := f.chartImage);
    if RecomputesPnl(u) then u.(pnlPoints := Some(Pnl(u.direction, u.entryPrice, u.exitPrice.value)))
    else u
  }

  /** An edit keeps a consistent closed trade consistent, unless its exit price is 0. */
  lemma EditKeepsConsistency(t: Trade, f: EditForm)
    requires ClosedConsistent(t)
    requires t.status == Closed ==> t.exitPrice != Some(0)
    ensures ClosedConsistent(Edited(t, f))
  {
  }

  /** With an exit price of 0, a changed entry price leaves the closed trade's pnl stale. */
  lemma EditAtZeroExitLeavesStalePnl(t: Trade, f: EditForm)
    requires ClosedConsistent(t) && t.status == Closed && t.exitPrice == Some(0)
    requires f.entryPrice != t.entryPrice
    ensures !ClosedConsistent(Edited(t, f))
  {
    var r := Edited(t, f);
    assert r.pnlPoints == Some(-t.entryPrice * Sign(t.direction));
    assert Pnl(r.direction, r.entryPrice, 0) == -f.entryPrice * Sign(t.direction);
  }

  /**
   * Saving the form exactly as it was filled in leaves a consistent trade as it was, except that
   * a missing bar number comes back as the empty string.
   */
  lemma SaveUntouchedForm(t: Trade)
    requires ClosedConsistent(t)
    ensures var r := Edited(t, FormOf(t));
      && OnlyChanged(t, r, {EntryCandleField, ExitCandleField})
      && r.entryCandleNumber == Some(t.entryCandleNumber.GetOr(""))
      && r.exitCandleNumber == Some(t.exitCandleNumber.GetOr(""))
  {
    var r := Edited(t, FormOf(t));
    forall fld | fld !in {EntryCandleField, ExitCandleField} ensures SameField(t, r, fld) {
      assert fld in EditableFields + {PnlField} ==> SameField(t, r, fld);
    }
  }

  // ----- notes and the AI coach -----

  /** Leaving the notes box stores the notes and nothing else. */
  function WithNotes(t: Trade, notesInput: string): (r: Trade)
    ensures r.userNotes == Some(notesInput)
    ensures OnlyChanged(t, r, {UserNotesField})
  {
    t.(userNotes := Some(notesInput))
  }

  /** The coach's answer. The score is whatever the service returned: it is not clamped to 0-10. */
  datatype AiResult = AiResult(feedback: string, score: int)

  /** What the service returns when no key is configured and when a call fails: a fixed text and score 0. */
  const MissingKeyResult: AiResult := AiResult("缺少 API Key。请配置环境以使用 AI 教练。", 0)
  const CallFailedResult: AiResult := AiResult("连接 AI 教练时发生错误，请稍后再试。", 0)

  /**
   * The record sent for analysis: the unsaved notes; the edited market context while editing;
   * the typed exit price and bar number when those boxes are non-empty; and, with a typed exit,
   * the pnl it implies, at full precision. The status is never touched, so an OPEN trade can
   * be sent (and then stored) with an exit price and a pnl.
   */
  function Snapshot(t: Trade, notesInput: string, isEditing: bool, editMarketContext: string,
                    exitInput: Option<Price>, exitCandleInput: string): (r: Trade)
    ensures OnlyChanged(t, r, SnapshotFields)
    ensures r.userNotes == Some(notesInput)
    ensures r.marketContext == (if isEditing then editMarketContext else t.marketContext)
    ensures r.exitPrice == (if exitInput.Some? then exitInput else t.exitPrice)
    ensures r.exitCandleNumber == (if exitCandleInput != "" then Some(exitCandleInput) else t.exitCandleNumber)
    ensures exitInput.Some? ==> r.pnlPoints == Some(Pnl(t.direction, t.entryPrice, exitInput.value))
    ensures exitInput.None? ==> r.pnlPoints == t.pnlPoints
  {
    t.(userNotes := Some(notesInput),
       marketContext := if isEditing then editMarketContext else t.marketContext,
       exitPrice := if exitInput.Some? then exitInput else t.exitPrice,
       exitCandleNumber := if exitCandleInput != "" then Some(exitCandleInput) else t.exitCandleNumber,
       pnlPoints := if exitInput.Some? then Some((exitInput.value - t.entryPrice) * Sign(t.direction))
                   else t.pnlPoints)
  }

  /** The snapshot keeps a consistent trade consistent: the exit and the pnl move together. */
  lemma SnapshotKeepsConsistency(t: Trade, notesInput: string, isEditing: bool, editMarketContext: string,
                                 exitInput: Option<Price>, exitCandleInput: string)
    requires ClosedConsistent(t)
    ensures ClosedConsistent(Snapshot(t, notesInput, isEditing, editMarketContext, exitInput, exitCandleInput))
  {
  }

  /** The fields the analysis snapshot may differ in from the stored trade. */
  const SnapshotFields: set<Field> :=
    {UserNotesField, MarketContextField, ExitPriceField, ExitCandleField, PnlField}

  /** Attaching the coach's answer sets the feedback and the score and nothing else. */
  function WithAiResult(s: Trade, result: AiResult): (r: Trade)
    ensures r.aiFeedback == Some(result.feedback) && r.aiScore == Some(result.score)
    ensures OnlyChanged(s, r, {AiFeedbackField, AiScoreField})
  {
    s.(aiFeedback := Some(result.feedback), aiScore := Some(result.score))
  }

  /** A failed or unconfigured analysis scores 0 and leaves every other field of the snapshot alone. */
  lemma FailedAnalysisScoresZero(s: Trade, result: AiResult)
    requires result == MissingKeyResult || result == CallFailedResult
    ensures WithAiResult(s, result).aiScore == Some(0)
    ensures OnlyChanged(s, WithAiResult(s, result), {AiFeedbackField, AiScoreField})
  {
  }

  /**
   * The record an analysis hands on differs from the trade shown when the button was pressed
   * only in the snapshot's fields and the two AI fields; in particular its status is that trade's.
   */
  lemma AnalysisFrame(t: Trade, notesInput: string, isEditing: bool, editMarketContext: string,
                      exitInput: Option<Price>, exitCandleInput: string, result: AiResult)
    ensures var r := WithAiResult(Snapshot(t, notesInput, isEditing, editMarketContext, exitInput, exitCandleInput), result);
      OnlyChanged(t, r, SnapshotFields + {AiFeedbackField, AiScoreField}) && r.status == t.status
  {
    var snapshot := Snapshot(t, notesInput, isEditing, editMarketContext, exitInput, exitCandleInput);
    var r := WithAiResult(snapshot, result);
    OnlyChangedCompose(t, snapshot, r, SnapshotFields, {AiFeedbackField, AiScoreField});
    assert SameField(t, r, StatusField);
  }

  // ----- planned risk/reward -----

  /** 'N/A', '0', or the ratio reward : risk (shown as `1:x.x`, formatting not modelled). */
  datatype RiskReward = NotAvailable | ZeroRisk | Ratio(reward: nat, risk: nat)

  /** JavaScript falsiness of an optional number: missing (or unparsable) or zero. */
  predicate Falsy(x: Option<Price>) {
    x.None? || x.value == 0
  }

  function Abs(x: int): nat {
    if x < 0 then -x else x
  }

  function RiskRewardOf(entry: Price, stop: Option<Price>, takeProfit: Option<Price>): (r: RiskReward)
    ensures r.NotAvailable? <==> Falsy(stop) || Falsy(takeProfit)
    ensures r.ZeroRisk? <==> !Falsy(stop) && !Falsy(takeProfit) && entry == stop.value
    ensures r.Ratio? ==> r.risk == Abs(entry - stop.value) && r.risk > 0
    ensures r.Ratio? ==> r.reward == Abs(takeProfit.value - entry)
  {
    if Falsy(stop) then NotAvailable
    else
      var risk := Abs(entry - stop.value);
      if Falsy(takeProfit) then NotAvailable
      else
        var reward := Abs(takeProfit.value - entry);
        if risk == 0 then ZeroRisk else Ratio(reward, risk)
  }

  function Negate(x: Option<Price>): Option<Price> {
    if x.Some? then Some(-x.value) else None
  }

  /** Mirroring every price (a long set-up turned into the matching short) keeps the figure. */
  lemma RiskRewardMirror(entry: Price, stop: Option<Price>, takeProfit: Option<Price>)
    ensures RiskRewardOf(-entry, Negate(stop), Negate(takeProfit)) == RiskRewardOf(entry, stop, takeProfit)
  {
  }

  /** Moving every price by a common offset keeps the figure wherever stop and target stay non-zero. */
  lemma RiskRewardShift(entry: Price, stop: Price, takeProfit: Price, k: int)
    requires stop != 0 && takeProfit != 0 && stop + k != 0 && takeProfit + k != 0
    ensures RiskRewardOf(entry + k, Some(stop + k), Some(takeProfit + k)) == RiskRewardOf(entry, Some(stop), Some(takeProfit))
  {
  }

  /** No handler of the detail view reads or writes the declared `isDeleted` flag. */
  lemma HandlersKeepIsDeleted(t: Trade, exitInput: Option<Price>, exitCandleInput: string, notesInput: string,
                              f: EditForm, isEditing: bool, editMarketContext: string, result: AiResult)
    ensures CloseTrade(t, exitInput, exitCandleInput, notesInput).Some? ==>
      CloseTrade(t, exitInput, exitCandleInput, notesInput).value.isDeleted == t.isDeleted
    ensures Edited(t, f).isDeleted == t.isDeleted
    ensures WithNotes(t, notesInput).isDeleted == t.isDeleted
    ensures WithAiResult(Snapshot(t, notesInput, isEditing, editMarketContext, exitInput, exitCandleInput),
                         result).isDeleted == t.isDeleted
  {
    assert SameField(t, Edited(t, f), IsDeletedField);
  }

  // ----- the view's own state -----

  /** The state the detail view keeps while it is open. */
  class DetailModal {
    var trade: Trade              // the trade shown; the journal passes in each updated record
    var exitPriceInput: Option<Price>
    var exitCandleInput: string
    var notesInput: string
    var isAnalyzing: bool
    var isEditing: bool
    var form: EditForm
    var analysisSnapshot: Option<Trade>   // the record sent to the coach while its answer is awaited

    constructor (t: Trade)
      ensures trade == t && exitPriceInput == t.exitPrice
      ensures exitCandleInput == t.exitCandleNumber.GetOr("") && notesInput == t.userNotes.GetOr("")
      ensures !isAnalyzing && !isEditing && form == FormOf(t) && analysisSnapshot.None?
    {
      trade := t;
      exitPriceInput := t.exitPrice;
      exitCandleInput := t.exitCandleNumber.GetOr("");
      notesInput := t.userNotes.GetOr("");
      isAnalyzing := false;
      isEditing := false;
      form := FormOf(t);
      analysisSnapshot := None;
    }

    /**
     * The journal hands the updated record back in. The inputs keep their values: their
     * initialisers ran once, when the view opened.
     */
    method TradeChanged(t: Trade)
      modifies this`trade
      ensures trade == t
    {
      trade := t;
    }

    method StartEditing()
      modifies this`isEditing
      ensures isEditing
    {
      isEditing := true;
    }

    /** Cancelling leaves the edit inputs as they are; only the mode changes. */
    method CancelEditing()
      modifies this`isEditing
      ensures !isEditing
    {
      isEditing := false;
    }

    /**
     * Builds the edited record, recomputes pnl in place when it applies, and leaves edit mode.
     * The steps follow the handler; the ensures ties the result to `Edited`, the definition the
     * lemmas above are about.
     */
    method SaveChanges() returns (updated: Trade)
      modifies this`isEditing
      ensures !isEditing
      ensures updated == Edited(trade, form)
    {
      updated := trade.(date := form.date, entryPrice := form.entryPrice, stopLoss := form.stopLoss,
                        takeProfit := form.takeProfit, strategy := form.strategy, style := form.style,
                        entryCandleNumber := Some(form.entryCandleNumber),
                        exitCandleNumber := Some(form.exitCandleNumber),
                        marketContext := form.marketContext, isEmotional := form.isEmotional,
                        confidence := form.confidence, chartImage := form.chartImage);
      if updated.status == Closed && updated.exitPrice.Some? && updated.exitPrice.value != 0 {
        var multiplier := if updated.direction == Long then 1 else -1;
        updated := updated.(pnlPoints := Some((updated.exitPrice.value - updated.entryPrice) * multiplier));
      }
      isEditing := false;
    }

    /**
     * Pressing the coach button: the snapshot is taken from the inputs now and sent, and the
     * view is busy until the answer arrives. Closing, editing, notes and delete stay available.
     */
    method BeginAnalyze() returns (sent: Trade)
      modifies this`isAnalyzing, this`analysisSnapshot
      ensures isAnalyzing
      ensures sent == Snapshot(trade, notesInput, isEditing, form.marketContext, exitPriceInput, exitCandleInput)
      ensures sent.status == trade.status
      ensures analysisSnapshot == Some(sent)
    {
      isAnalyzing := true;
      sent := Snapshot(trade, notesInput, isEditing, form.marketContext, exitPriceInput, exitCandleInput);
      analysisSnapshot := Some(sent);
    }

    /**
     * The answer arrives (a parameter here). It is attached to the snapshot taken when the
     * button was pressed, not to the trade shown now, and the result is handed on.
     */
    method FinishAnalyze(result: AiResult) returns (updated: Trade)
      requires analysisSnapshot.Some?
      modifies this`isAnalyzing, this`analysisSnapshot
      ensures !isAnalyzing && analysisSnapshot.None?
      ensures updated == WithAiResult(old(analysisSnapshot).value, result)
    {
      updated := WithAiResult(analysisSnapshot.value, result);
      analysisSnapshot := None;
      isAnalyzing := false;
    }

    /** The closing handler, on the view's current inputs. */
    function CloseUpdate(): (r: Option<Trade>)
      reads this
      ensures r == CloseTrade(trade, exitPriceInput, exitCandleInput, notesInput)
      ensures r.None? <==> exitPriceInput.None?
      ensures r.Some? ==> r.value.status == Closed && r.value.exitPrice == exitPriceInput
      ensures r.Some? ==> OnlyChanged(trade, r.value, {StatusField, ExitPriceField, ExitCandleField, PnlField, UserNotesField})
    {
      CloseTrade(trade, exitPriceInput, exitCandleInput, notesInput)
    }

    /** The notes handler, on the view's current inputs. */
    function NotesUpdate(): (r: Trade)
      reads this
      ensures r.userNotes == Some(notesInput) && OnlyChanged(trade, r, {UserNotesField})
    {
      WithNotes(trade, notesInput)
    }

    /** The figure shown: from the edit inputs while editing, else from the stored trade. */
    function PlannedRiskReward(): (r: RiskReward)
      reads this
      ensures r.NotAvailable? <==>
        if isEditing then form.stopLoss == 0 || Falsy(form.takeProfit) else trade.stopLoss == 0 || Falsy(trade.takeProfit)
      ensures r.Ratio? ==>
        r.risk == (if isEditing then Abs(form.entryPrice - form.stopLoss) else Abs(trade.entryPrice - trade.stopLoss))
    {
      if isEditing then RiskRewardOf(form.entryPrice, Some(form.stopLoss), form.takeProfit)
      else RiskRewardOf(trade.entryPrice, Some(trade.stopLoss), trade.takeProfit)
    }
  }
}
