/**
 * The application state held at the root of the journal: the trade list, the selected date,
 * the open dialogs and the pending delete and import, with the handlers that change them.
 * Writing the list to local storage after each change is not part of this model; it does
 * not affect the in-memory state.
 */
module App {
  import opened Wrappers
  import opened Types
  import opened Store
  import Stats
  import TradeDetail

  class Journal {
    var trades: seq<Trade>
    var selectedDate: string
    var isWizardOpen: bool
    var wizardVersion: nat
    var selectedTrade: Option<Trade>
    var tradeToDelete: Option<string>
    var isResetModalOpen: bool
    var pendingImport: Option<seq<Trade>>
    var chatMessages: seq<ChatMessage>

    /** A fresh start on `today` (what local storage held is not modelled). */
    constructor (today: string)
      ensures trades == [] && selectedDate == today && !isWizardOpen && wizardVersion == 0
      ensures selectedTrade.None? && tradeToDelete.None? && !isResetModalOpen
      ensures pendingImport.None? && chatMessages == []
    {
      trades := [];
      selectedDate := today;
      isWizardOpen := false;
      wizardVersion := 0;
      selectedTrade := None;
      tradeToDelete := None;
      isResetModalOpen := false;
      pendingImport := None;
      chatMessages := [];
    }

    // ----- derived views, recomputed on every read -----

    /** `filteredTrades`: exactly the selected day's trades, newest first. */
    function DayView(): (r: seq<Trade>)
      reads this
      ensures r == Stats.DayView(trades, selectedDate)
      ensures Stats.SortedDesc(r)
      ensures forall t :: t in r <==> t in trades && t.date == selectedDate
    {
      Stats.DayView(trades, selectedDate)
    }

    /** `dailyStats` over the day view. */
    function Daily(): (r: Stats.DailyStats)
      reads this
      ensures r == Stats.DailyStatsOf(DayView())
      ensures r.total == |DayView()|
      ensures r.wins + r.losses <= r.closedCount <= r.total
    {
      Stats.DailyStatsOf(DayView())
    }

    /** The win-rate figure on the dashboard. */
    function WinRate(): (r: int)
      reads this
      ensures 0 <= r <= 100
      ensures Daily().closedCount == 0 ==> r == 0
    {
      Stats.WinRate(Daily())
    }

    /** `totalHistoricalPoints`: the selected day's points plus those of every other day. */
    function AllTime(): (r: int)
      reads this
      ensures r == Daily().points + Stats.AllTimePoints(Stats.Filter(trades, Stats.OffDay(selectedDate)))
    {
      Stats.AllTimeSplitsAtSelectedDay(trades, selectedDate);
      Stats.AllTimePoints(trades)
    }

    // ----- handlers -----

    /** The date picker. The all-time figure does not move. */
    method SelectDate(d: string)
      modifies this`selectedDate
      ensures selectedDate == d
      ensures AllTime() == old(AllTime())
    {
      selectedDate := d;
    }

    /** Opening the wizard remounts it with fresh inputs. */
    method OpenWizard()
      modifies this`isWizardOpen, this`wizardVersion
      ensures isWizardOpen && wizardVersion == old(wizardVersion) + 1
    {
      wizardVersion := wizardVersion + 1;
      isWizardOpen := true;
    }

    /**
     * Stores the wizard's trade under a new id and timestamp, in front of all others, and closes
     * the wizard. The id comes from a random UUID, taken here to be fresh.
     */
    method SaveTrade(draft: Trade, id: string, timestamp: int)
      requires !HasId(trades, id)
      modifies this`trades, this`isWizardOpen
      ensures trades == [draft.(id := id, timestamp := timestamp)] + old(trades)
      ensures |trades| == |old(trades)| + 1 && trades[1..] == old(trades)
      ensures UniqueIds(old(trades)) ==> UniqueIds(trades)
      ensures !isWizardOpen
    {
      var t := draft.(id := id, timestamp := timestamp);
      SaveKeepsUnique(trades, t);
      trades := [t] + trades;
      isWizardOpen := false;
    }

    /** Replaces every entry carrying the updated trade's id and shows the updated trade. */
    method UpdateTrade(updated: Trade)
      modifies this`trades, this`selectedTrade
      ensures trades == ReplaceById(old(trades), updated)
      ensures !HasId(old(trades), updated.id) ==> trades == old(trades)
      ensures IdsOf(trades) == IdsOf(old(trades))
      ensures selectedTrade == Some(updated)
    {
      ReplaceKeepsIds(trades, updated);
      if !HasId(trades, updated.id) {
        ReplaceAbsentIsIdentity(trades, updated);
      }
      trades := ReplaceById(trades, updated);
      selectedTrade := Some(updated);
    }

    method SelectTrade(t: Trade)
      modifies this`selectedTrade
      ensures selectedTrade == Some(t)
    {
      selectedTrade := Some(t);
    }

    method CloseDetail()
      modifies this`selectedTrade
      ensures selectedTrade.None?
    {
      selectedTrade := None;
    }

    method InitiateDelete(id: string)
      modifies this`tradeToDelete
      ensures tradeToDelete == Some(id)
    {
      tradeToDelete := Some(id);
    }

    /**
     * Deletes every entry carrying the pending id, closes the detail view if it showed that
     * trade, and clears the pending id. A missing or empty pending id (falsy) does nothing.
     */
    method ConfirmDelete()
      modifies this`trades, this`selectedTrade, this`tradeToDelete
      ensures old(tradeToDelete).None? || old(tradeToDelete).value == "" ==>
        trades == old(trades) && selectedTrade == old(selectedTrade) && tradeToDelete == old(tradeToDelete)
      ensures old(tradeToDelete).Some? && old(tradeToDelete).value != "" ==>
        var id := old(tradeToDelete).value;
        && trades == RemoveById(old(trades), id)
        && (forall t :: t in trades <==> t in old(trades) && t.id != id)
        && tradeToDelete.None?
        && selectedTrade == (if old(selectedTrade).Some? && old(selectedTrade).value.id == id
                             then None else old(selectedTrade))
      ensures UniqueIds(old(trades)) ==> UniqueIds(trades)
    {
      if tradeToDelete.Some? && tradeToDelete.value != "" {
        var id := tradeToDelete.value;
        if UniqueIds(trades) {
          RemoveKeepsUnique(trades, id);
        }
        trades := RemoveById(trades, id);
        if selectedTrade.Some? && selectedTrade.value.id == id {
          selectedTrade := None;
        }
        tradeToDelete := None;
      }
    }

    method CancelDelete()
      modifies this`tradeToDelete
      ensures tradeToDelete.None?
    {
      tradeToDelete := None;
    }

    method RequestReset()
      modifies this`isResetModalOpen
      ensures isResetModalOpen
    {
      isResetModalOpen := true;
    }

    method CancelReset()
      modifies this`isResetModalOpen
      ensures !isResetModalOpen
    {
      isResetModalOpen := false;
    }

    /** Empties the list, the chat and every pending slot; the selected date stays. */
    method ConfirmFactoryReset()
      modifies this`trades, this`wizardVersion, this`selectedTrade, this`tradeToDelete,
               this`pendingImport, this`chatMessages, this`isResetModalOpen
      ensures trades == [] && wizardVersion == 0 && selectedTrade.None? && tradeToDelete.None?
      ensures pendingImport.None? && chatMessages == [] && !isResetModalOpen
      ensures AllTime() == 0 && Daily().total == 0
    {
      trades := [];
      wizardVersion := 0;
      selectedTrade := None;
      tradeToDelete := None;
      pendingImport := None;
      chatMessages := [];
      isResetModalOpen := false;
    }

    /** The dialog's accepted document waits here for confirmation. */
    method ImportRequest(imported: seq<Trade>)
      modifies this`pendingImport
      ensures pendingImport == Some(imported)
    {
      pendingImport := Some(imported);
    }

    method CancelImport()
      modifies this`pendingImport
      ensures pendingImport.None?
    {
      pendingImport := None;
    }

    /**
     * Replaces the whole list with the pending one and, when it is non-empty, jumps to its
     * greatest date. Ids are not checked for uniqueness. With nothing pending, nothing changes.
     */
    method ConfirmImport()
      modifies this`trades, this`selectedDate, this`pendingImport
      ensures old(pendingImport).None? ==>
        trades == old(trades) && selectedDate == old(selectedDate) && pendingImport.None?
      ensures old(pendingImport).Some? ==>
        && trades == old(pendingImport).value
        && pendingImport.None?
        && (|trades| == 0 ==> selectedDate == old(selectedDate))
        && (|trades| > 0 ==> selectedDate == GreatestDate(trades))
      ensures old(pendingImport).Some? && |trades| > 0 ==>
        (exists i :: 0 <= i < |trades| && trades[i].date == selectedDate) &&
        (forall i :: 0 <= i < |trades| ==> Strings.LexLe(trades[i].date, selectedDate))
    {
      if pendingImport.Some? {
        var imported := pendingImport.value;
        trades := imported;
        if |imported| > 0 {
          selectedDate := GreatestDate(imported);
        }
        pendingImport := None;
      }
    }
  }

  /** Helper for SaveTrade: the fresh id keeps ids unique. */
  lemma SaveKeepsUnique(ts: seq<Trade>, t: Trade)
    requires !HasId(ts, t.id)
    ensures UniqueIds(ts) ==> UniqueIds([t] + ts)
  {
    if UniqueIds(ts) {
      PrependFreshKeepsUnique(ts, t);
    }
  }

  /**
   * An analysis started on an OPEN trade finishes after the trade was closed: the late update,
   * keyed by the same id, puts the OPEN snapshot back over the closed record.
   */
  lemma LateAnalysisUndoesClose(ts: seq<Trade>, k: nat, exit: Price, exitCandleInput: string, notesInput: string,
                                isEditing: bool, editMarketContext: string, exitAtPress: Option<Price>,
                                exitCandleAtPress: string, result: TradeDetail.AiResult)
    requires k < |ts| && ts[k].status == Open
    ensures var t := ts[k];
      var closed := TradeDetail.CloseTrade(t, Some(exit), exitCandleInput, notesInput).value;
      var late := TradeDetail.WithAiResult(TradeDetail.Snapshot(t, notesInput, isEditing, editMarketContext,
                                                                exitAtPress, exitCandleAtPress), result);
      ReplaceById(ts, closed)[k].status == Closed && ReplaceById(ReplaceById(ts, closed), late)[k].status == Open
  {
    var t := ts[k];
    TradeDetail.AnalysisFrame(t, notesInput, isEditing, editMarketContext, exitAtPress, exitCandleAtPress, result);
    var late := TradeDetail.WithAiResult(TradeDetail.Snapshot(t, notesInput, isEditing, editMarketContext,
                                                              exitAtPress, exitCandleAtPress), result);
    assert SameField(t, late, IdField);
  }

  /** A late update of a deleted trade leaves the list as it is (the view still shows the trade). */
  lemma LateUpdateAfterDelete(ts: seq<Trade>, u: Trade)
    ensures ReplaceById(RemoveById(ts, u.id), u) == RemoveById(ts, u.id)
  {
    ReplaceAbsentIsIdentity(RemoveById(ts, u.id), u);
  }
}
