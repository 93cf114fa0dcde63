# Mindful trading journal — a Dafny model of its trade-record core

PATradeLog is a browser trading journal for futures price-action traders. Before each trade
the trader passes a two-step intake wizard: a mindset check first, then the trade details. The
trade is stored in a list kept at the root of the app. A day view shows that day's trades with
their daily statistics and an all-time points total. A detail view closes, edits and annotates
a trade, and can send it to an AI coach. A data dialog imports a backup.

This project models that core in Dafny and proves what each operation does to the records.

- `Types` (types.dfy). This module holds:
  - the closed enumerations and the `Trade` record, where every optional field is an `Option`
  - the signed pnl
  - a `Field` enumeration with `SameField`/`OnlyChanged`, which lets contracts say which fields a record update may touch and that all other fields are kept
  - `ClosedConsistent`: a CLOSED trade carries an exit and the pnl that exit implies
- `Store` (store.dfy). Id-keyed replacement and removal on a trade list, id uniqueness, and the greatest date of a list.
- `Stats` (stats.dfy). The day view (filter by date, then a stable sort by timestamp, newest first), the daily counts and points, the win rate, and the all-time total.
- `App` (journal.dfy). The `Journal` class holds the root state: the trade list, the selected date, the dialogs' flags, the pending delete id and the pending import. Its methods are the root's handlers.
- `TradeDetail` (trade_detail.dfy). Each handler is a record-to-record function: close, save edits, leave the notes box, analysis snapshot, attaching the AI result, and planned risk/reward. The `DetailModal` class holds the view's own state (inputs, edit mode, busy flag).
- `Wizard` (wizard.dfy). The intake form, the step-1 and step-2 gates in source order, the trade the wizard emits, and the `TradeWizard` state machine.
- `DataManagement` (data_management.dfy). The structural check an already parsed backup document must pass, and the dialog's file-chosen and reset handlers.
- `Strings` (strings.dfy) and `Wrappers` (wrappers.dfy) are support modules:
  - `Strings` provides whitespace trimming as `String.prototype.trim` defines it, and a lexicographic order standing in for `localeCompare`
  - `Wrappers` provides `Option`

How the JavaScript is represented:

- Prices and pnl are integers in hundredths of a point, so every `Math.round(x * 100) / 100` in the source is the identity.
- A price typed into a text box is an `Option<int>`, with `None` for the empty box. The string "0" is truthy, so `Some(0)` passes every "box is empty" guard.
- A stored number 0 is falsy. So saving an edit skips the pnl recompute when the exit price is 0, and the risk/reward figure reads a zero stop or target as missing.
- The pending delete id `""` is falsy, so confirming it does nothing. An empty pending import list is truthy, so confirming it empties the journal.
- An OPEN trade can carry an exit price, set in two places:
  - the wizard stores a typed exit price even in OPEN mode (components/TradeWizard.tsx:105)
  - the analysis snapshot copies a typed exit price and its pnl without touching the status (components/TradeDetailModal.tsx:101-103)

  `ClosedConsistent` therefore constrains CLOSED trades only, and `Wizard.OpenTradeKeepsTypedExit` shows the OPEN case.
- The coach call is asynchronous. The snapshot is taken when the button is pressed and the answer is attached to it when it arrives (`BeginAnalyze`, `FinishAnalyze`). Only the analyse buttons are disabled meanwhile, so closing, editing, notes and delete can happen in between. The late update then overwrites by id: `App.LateAnalysisUndoesClose` shows a close made in between being reverted to OPEN, and `App.LateUpdateAfterDelete` shows that a deleted trade stays out of the list while `UpdateTrade` shows it again.
- `confidence` (documented as 1-100) and `aiScore` (documented as 0-10) are plain integers. Nothing in the types or the handlers enforces those ranges. `TradeDetail.WithAiResult` stores whatever score it is given.

## Model

| member | source | states |
|---|---|---|
| Types.AllAssets | types.ts:2-6 | `Asset` has exactly three distinct values and every asset is among them |
| Types.AllOrderTypes | types.ts:8-12 | `OrderType` has exactly three distinct values, all listed |
| Types.AllDirections | types.ts:14-17 | `Direction` has exactly two values, LONG and SHORT |
| Types.AllStrategies | types.ts:19-26 | `Strategy` has exactly six distinct values, all listed |
| Types.AllStatuses | types.ts:28-31 | `TradeStatus` has exactly OPEN and CLOSED; there is no other state |
| Types.AllStyles | types.ts:33 | `TradeStyle` is exactly one of four tags |
| Types.Sign | components/TradeDetailModal.tsx:42 | the direction multiplier is +1 or −1, and +1 exactly for LONG |
| Types.Pnl | components/TradeDetailModal.tsx:42-43 | a LONG profits exactly when exit > entry, a SHORT exactly when exit < entry; pnl is zero exactly at exit == entry |
| Types.PnlMirror | components/TradeDetailModal.tsx:42-43 | for the same prices, LONG and SHORT pnl are negatives of each other |
| Types.OnlyChangedCompose | components/TradeDetailModal.tsx:97-112 | two updates in a row touch at most the union of their field sets (the snapshot followed by the AI attach) |
| Strings.LexLeReflexive | App.tsx:216 | the date order is reflexive |
| Strings.LexLeTotal | App.tsx:216 | any two dates are comparable |
| Strings.LexLeAntisymmetric | App.tsx:216 | two dates ordered both ways are equal |
| Strings.LexLeTransitive | App.tsx:216 | the date order is transitive |
| Strings.LexLe | App.tsx:216 | a prefix sorts no later than the longer string |
| Strings.LexLeFirstDifference | App.tsx:216 | after a common prefix, the first differing character decides the order, in both directions |
| Strings.TrimStart | components/TradeWizard.tsx:60 | the result is a suffix of the input; every dropped character is white space; it begins with a non-white-space character or is empty |
| Strings.TrimEnd | components/TradeWizard.tsx:60 | the result is a prefix of the input; every dropped character is white space; it ends with a non-white-space character or is empty |
| Strings.Trim | components/TradeWizard.tsx:60 | the trimmed text is no longer than the input and begins and ends with a non-white-space character, or is empty |
| Strings.TrimEmptyIffBlank | components/TradeWizard.tsx:60 | the trimmed context is empty if and only if every character is whitespace |
| Store.ReplaceById | App.tsx:121 | same length; each entry whose id is the updated id becomes the update, every other entry is kept in place |
| Store.ReplaceAbsentIsIdentity | App.tsx:121 | with no matching id the list is unchanged |
| Store.ReplaceKeepsIds | App.tsx:121 | the sequence of ids is unchanged, so unique ids stay unique |
| Store.ReplaceIdempotent | App.tsx:121 | applying the same update twice equals applying it once |
| Store.ReplaceUniqueHitsOne | App.tsx:121 | with unique ids, exactly the one matching position is replaced |
| Store.RemoveById | App.tsx:170 | the result has no more entries than the input; a trade is in it if and only if it was in the input with a different id |
| Store.RemoveConcat | App.tsx:170 | removal distributes over concatenation, so the kept entries stay in order |
| Store.RemoveAbsentIsIdentity | App.tsx:170 | removing an absent id leaves the list unchanged |
| Store.RemoveLength | App.tsx:170 | the length drops by exactly the number of entries carrying the id |
| Store.RemoveKeepsUnique | App.tsx:170 | removal keeps ids unique |
| Store.PrependFreshKeepsUnique | App.tsx:110-116 | prepending a trade with a fresh id keeps ids unique |
| Store.GreatestDate | App.tsx:214-217 | the date of the first entry after a descending sort: it is one of the list's dates, and every date is at or below it |
| Store.GreatestDateUnique | App.tsx:216-217 | any date present in the list that bounds all its dates is that date |
| Stats.Filter | App.tsx:83-100 | the filtered list is no longer than the input, every entry in it passes the test, and a list whose every entry passes is kept whole |
| Stats.IsClosed | App.tsx:87 | the closed test holds exactly for the trades that are not OPEN |
| Stats.IsWin | App.tsx:93 | a win is a trade with a pnl above 0; a trade without a pnl is never a win |
| Stats.IsLoss | App.tsx:94 | a loss is a trade with a pnl below 0; a trade without a pnl is never a loss, and no win is a loss |
| Stats.OnDay | App.tsx:83 | the day test holds exactly for the trades of that date |
| Stats.OffDay | App.tsx:99-103 | the other-days test is the complement of the day test |
| Stats.FilterMembers | App.tsx:83 | a trade is in the filtered list if and only if it is in the list and passes the test |
| Stats.InsertDesc | App.tsx:83 | inserting into a timestamp-descending list keeps it descending, one longer, and the new trade goes first exactly when it is at least as new as the head |
| Stats.InsertMultiset | App.tsx:83 | insertion adds exactly the one trade and loses none |
| Stats.SortDesc | App.tsx:83 | the sort is timestamp-descending and a permutation of its input |
| Stats.DayView | App.tsx:82-84 | the day view is timestamp-descending, a permutation of the trades of that date, and holds a trade if and only if it has that date |
| Stats.PnlOrZero | App.tsx:88 | a trade's pnl, or 0 when it has none |
| Stats.SumPnl | App.tsx:88 | the reduce sum; non-negative when every pnl is, non-positive when every pnl is |
| Stats.FilterConcat | App.tsx:83 | filtering keeps list order: the filter of a concatenation is the concatenation of the filters |
| Stats.DailyStatsOf | App.tsx:86-96 | total is the view's length, closedCount the number of CLOSED trades, points their pnl sum with missing as 0, wins the closed trades with pnl > 0, losses those with pnl < 0, and wins + losses ≤ closedCount ≤ total |
| Stats.AllTimePoints | App.tsx:99-103 | the closed-trade pnl sum over the whole list, whatever the date; 0 when no trade is closed |
| Stats.AllTimePrepend | App.tsx:99-116 | a newly saved trade adds its pnl to the all-time total when closed and nothing when open |
| Stats.WinsLossesBound | App.tsx:93-94 | a trade is never both a win and a loss, so wins + losses is at most the number of closed trades |
| Stats.WinRate | App.tsx:287-289 | 0 when nothing is closed; otherwise 100·wins/closedCount rounded half up; it lies in 0..100 |
| Stats.SumPnlConcat | App.tsx:88 | the pnl sum of a concatenation is the sum of the sums |
| Stats.SortFilterSum | App.tsx:83-88 | sorting the day view does not change the closed-trade pnl sum |
| Stats.SortFilterCount | App.tsx:83-91 | sorting the day view does not change any count |
| Stats.SplitByDay | App.tsx:99-103 | the closed-trade pnl of the selected date plus that of every other date is the all-time total |
| Stats.AllTimeSplitsAtSelectedDay | App.tsx:86-103 | the all-time total equals the day's points plus the points of every other date, whichever date is selected |
| Stats.DayTotalCountsDate | App.tsx:82-91 | total and closedCount count exactly the trades of the selected date (and the closed ones among them) |
| App.Journal.DayView | App.tsx:82-84 | the day view of the journal's trades at the selected date: newest first, and holds a trade exactly when it is in the journal with the selected date |
| App.Journal.Daily | App.tsx:86-96 | the daily figures of the day view, as `Stats.DailyStatsOf` gives them: total is the day view's length, and wins + losses ≤ closedCount ≤ total |
| App.Journal.WinRate | App.tsx:287-289 | the figure lies in 0..100, and is 0 when nothing that day is closed |
| App.Journal.AllTime | App.tsx:99-103 | the all-time total is the day's points plus those of every other date |
| App.LateAnalysisUndoesClose | components/TradeDetailModal.tsx:95-116 | a close made while an analysis of an OPEN trade is awaited is overwritten, by id, with the OPEN snapshot |
| App.LateUpdateAfterDelete | App.tsx:120-123 | a late update of a deleted trade leaves the list unchanged |
| App.Journal.constructor | App.tsx:28-50 | the journal starts empty on the given date with every dialog closed and nothing pending |
| App.Journal.SelectDate | App.tsx:252 | sets the date and leaves the all-time total unchanged |
| App.Journal.OpenWizard | App.tsx:105-108 | bumps the wizard version by one and opens it |
| App.Journal.SaveTrade | App.tsx:110-118 | the list becomes the new trade (with the fresh id and timestamp) followed by the old list unchanged; unique ids stay unique; the wizard closes |
| App.Journal.UpdateTrade | App.tsx:120-123 | the list is the id-keyed replacement of the old list, unchanged with no match, with the same ids; the updated trade is shown |
| App.Journal.SelectTrade | App.tsx:316 | shows the chosen trade |
| App.Journal.CloseDetail | App.tsx:366 | nothing is shown |
| App.Journal.InitiateDelete | App.tsx:164-166 | the id becomes the pending id |
| App.Journal.ConfirmDelete | App.tsx:168-176 | with a truthy pending id: exactly the entries with that id go, the rest keep their order, a shown trade with that id is closed, and the pending id is cleared; otherwise nothing changes |
| App.Journal.CancelDelete | App.tsx:178-180 | only the pending id is cleared |
| App.Journal.RequestReset | App.tsx:184-186 | opens the reset confirmation |
| App.Journal.CancelReset | App.tsx:397 | closes the reset confirmation |
| App.Journal.ConfirmFactoryReset | App.tsx:188-200 | trades, chat, pending import, pending delete and shown trade are emptied, the wizard version is 0, the dialog closes; the date is kept |
| App.Journal.ImportRequest | App.tsx:204-207 | the list waits as the pending import |
| App.Journal.CancelImport | App.tsx:407 | the pending import is discarded |
| App.Journal.ConfirmImport | App.tsx:209-222 | with a pending list: the journal becomes that list, a non-empty list moves the date to its greatest date (present in the list and bounding all its dates), and the slot is cleared; with nothing pending nothing changes |
| TradeDetail.CloseTrade | components/TradeDetailModal.tsx:39-56 | no update exactly when the exit box is empty; otherwise CLOSED with that exit, exit bar, notes and the pnl the exit implies, consistent, and no other field changed |
| TradeDetail.CloseIdempotent | components/TradeDetailModal.tsx:39-56 | closing a closed trade again with the same inputs changes nothing |
| TradeDetail.CloseLongShortOpposite | components/TradeDetailModal.tsx:42-43 | closing a LONG and a SHORT at the same prices books opposite pnl |
| TradeDetail.FormOf | components/TradeDetailModal.tsx:23-30 | the edit inputs start from the stored prices, with empty text for a missing bar number |
| TradeDetail.RecomputesPnl | components/TradeDetailModal.tsx:86 | the save recomputes pnl exactly for a CLOSED trade whose exit is truthy, i.e. present and not 0 |
| TradeDetail.Edited | components/TradeDetailModal.tsx:69-89 | exactly the twelve edited fields take the form's values, and pnl changes only by a recompute; a CLOSED trade with a non-zero exit gets the pnl of the new entry, every other trade keeps its pnl |
| TradeDetail.EditKeepsConsistency | components/TradeDetailModal.tsx:86-89 | an edit keeps a consistent closed trade consistent when its exit is not 0 |
| TradeDetail.EditAtZeroExitLeavesStalePnl | components/TradeDetailModal.tsx:86-89 | at exit price 0 a changed entry leaves a closed trade's pnl wrong |
| TradeDetail.SaveUntouchedForm | components/TradeDetailModal.tsx:69-84 | saving the inputs as first filled in changes nothing except turning absent bar numbers into empty strings |
| TradeDetail.WithNotes | components/TradeDetailModal.tsx:317 | leaving the notes box changes only the notes |
| TradeDetail.Snapshot | components/TradeDetailModal.tsx:97-104 | notes from the box; context from the edit box while editing; exit, exit bar and pnl from the boxes when non-empty, else stored; nothing else changes, status included |
| TradeDetail.SnapshotKeepsConsistency | components/TradeDetailModal.tsx:97-104 | the snapshot keeps a consistent trade consistent |
| TradeDetail.WithAiResult | components/TradeDetailModal.tsx:108-112 | attaching sets feedback and score from the result and nothing else |
| TradeDetail.FailedAnalysisScoresZero | services/geminiService.ts:85-91 | the missing-key answer (services/geminiService.ts:10-15) and the failed-call answer both score 0 and touch only the AI fields |
| TradeDetail.RiskRewardOf | components/TradeDetailModal.tsx:123-134 | N/A exactly when stop or target is falsy; 0 exactly when they are truthy and entry equals stop; otherwise reward/risk with risk = abs(entry − stop) > 0 and reward = abs(target − entry) |
| TradeDetail.RiskRewardMirror | components/TradeDetailModal.tsx:123-134 | negating every price (the mirrored set-up) gives the same figure |
| TradeDetail.RiskRewardShift | components/TradeDetailModal.tsx:123-134 | shifting every price by one offset gives the same figure while stop and target stay non-zero |
| TradeDetail.AnalysisFrame | components/TradeDetailModal.tsx:97-112 | the analysed record differs from the trade only in the snapshot's fields and the AI fields; its status is the trade's |
| TradeDetail.HandlersKeepIsDeleted | types.ts:71 | no detail handler changes the declared `isDeleted` flag |
| TradeDetail.DetailModal.constructor | components/TradeDetailModal.tsx:16-36 | inputs start from the stored trade, not editing, not analysing, no analysis awaited |
| TradeDetail.DetailModal.TradeChanged | components/TradeDetailModal.tsx:15-36 | the journal's updated record replaces the shown trade; the inputs keep their values |
| TradeDetail.DetailModal.CloseUpdate | components/TradeDetailModal.tsx:39-56 | the close handler `CloseTrade` on the current inputs: no update exactly when the exit box is empty, otherwise a CLOSED record at that exit differing only in the closing fields |
| TradeDetail.DetailModal.NotesUpdate | components/TradeDetailModal.tsx:317 | on the current notes box: only the notes change |
| TradeDetail.DetailModal.PlannedRiskReward | components/TradeDetailModal.tsx:123-134 | computed from the edit inputs while editing, else from the stored trade: N/A exactly when that stop is 0 or that target falsy, and the risk is that entry's distance to that stop |
| TradeDetail.DetailModal.StartEditing | components/TradeDetailModal.tsx:164 | enters edit mode |
| TradeDetail.DetailModal.CancelEditing | components/TradeDetailModal.tsx:173 | leaves edit mode and keeps the inputs |
| TradeDetail.DetailModal.SaveChanges | components/TradeDetailModal.tsx:69-93 | hands on the edited record, including the pnl recompute done in place, and leaves edit mode |
| TradeDetail.DetailModal.BeginAnalyze | components/TradeDetailModal.tsx:95-106 | the view is busy; the snapshot of the current inputs is sent and kept, with the status unchanged |
| TradeDetail.DetailModal.FinishAnalyze | components/TradeDetailModal.tsx:106-116 | the answer is attached to the snapshot kept at the press, not to the trade now shown, and handed on; the view is no longer busy |
| Wizard.InitialForm | components/TradeWizard.tsx:17-36 | the answer is unset, context empty, confidence 50, status OPEN, every price box empty, no image, both bar numbers empty |
| Wizard.Step1Gate | components/TradeWizard.tsx:55-70 | an unset answer blocks first, then a blank context; an emotional answer that is not confirmed declines; step 1 passes exactly when answered, context non-blank, and an emotional answer confirmed |
| Wizard.Step2Gate | components/TradeWizard.tsx:72-80 | missing entry or stop is reported first, then a missing exit in CLOSED mode; step 2 passes exactly when both are satisfied |
| Wizard.BuildTrade | components/TradeWizard.tsx:82-109 | the trade carries the selected date, the form's prices, status, context, key-level flag, confidence, style, asset, timeframe, strategy, order type and image, emotional only if answered yes, the typed exit, an absent exit bar for empty text, pnl only in CLOSED mode, no AI fields or notes, and is consistent |
| Wizard.OpenTradeKeepsTypedExit | components/TradeWizard.tsx:105 | an OPEN trade keeps a typed exit price |
| Wizard.TradeWizard.constructor | components/TradeWizard.tsx:13-36 | step 1, no error, the initial form |
| Wizard.TradeWizard.Next | components/TradeWizard.tsx:54-113 | step 1 never emits and follows the step-1 gate (error set, error kept on a declined override, error cleared on advance); step 2 stays at step 2 and emits the built trade exactly when the step-2 gate passes, else sets its error |
| DataManagement.CheckImport | components/DataManagementModal.tsx:41-52 | accepted exactly when the document is a list that is empty or whose first element has truthy `id` and `date`; an accepted list is passed on unchanged |
| DataManagement.OnlyFirstInspected | components/DataManagementModal.tsx:43 | elements after the first never change the verdict |
| DataManagement.DuplicateIdsAccepted | components/DataManagementModal.tsx:43-48 | a list holding one record twice is accepted: ids are not checked for uniqueness |
| DataManagement.EmptyAcceptedNonListRejected | components/DataManagementModal.tsx:41-52 | an empty list is accepted; a non-list is always rejected |
| DataManagement.DataModal.constructor | components/DataManagementModal.tsx:14 | no error at first |
| DataManagement.DataModal.FileChange | components/DataManagementModal.tsx:33-60 | an accepted document is handed on and the dialog closes; every rejection, a parse failure included, sets the one error message and hands on nothing; no file does nothing |
| DataManagement.DataModal.ResetApp | components/DataManagementModal.tsx:62-67 | only asks the journal to start the reset and then closes |

## Left out

- Local storage: loading, saving and the storage-full alert are I/O. Because loading from local storage is not modelled, the journal starts empty.
- Parsing and export are foreign calls: `JSON.parse`, `JSON.stringify`, `FileReader`, `Blob`, object URLs and the download anchor. The import model starts from an already parsed value.
- Parsing the candidate document as `Trade[]` is an unchecked cast in the source. Beyond the first-element check, nothing about the parsed value is checked, and the model does not bridge `Json` to `Trade`. `App.Journal.ImportRequest` takes a list of trades.
- `parseFloat`, NaN, IEEE rounding and the `toFixed(1)` formatting of the risk/reward ratio are floating point and formatting. Prices are integer hundredths, and the ratio is returned as the pair (reward, risk).
- The edit boxes for entry and stop are assumed to hold numbers. An emptied box (NaN in the source) is not modelled.
- The Gemini client and its prompts are a foreign LLM client. The coach's `{feedback, score}` answer is a parameter of `FinishAnalyze`, and only the two fixed fallback answers are modelled.
- Non-integer AI scores and non-integer JSON numbers are not modelled.
- The chat session and message appends are asynchronous and UI. `chatMessages` is only emptied by the factory reset.
- The id generator (random UUID) and the `Date.now` timestamps are nondeterministic. They are parameters of `App.Journal.SaveTrade`, whose precondition makes the id fresh.
- `window.confirm` is a blocking prompt and is the `confirmed` argument of `Wizard.TradeWizard.Next`.
- Stats.WinRate: the source computes `Math.round(wins / closedCount * 100)` in floating point. The model rounds the exact ratio half up and does not reproduce float error.
- Store.GreatestDate: `localeCompare` is modelled as plain lexicographic order on characters. That agrees with it on ISO `YYYY-MM-DD` dates but not on arbitrary text.
- Stats.DayView: the contract does not say that the sort is stable. Its order among trades with equal timestamps is not stated, and neither is that of `Array.prototype.sort`.
- Setters that only store one field are not modelled: the per-input change handlers, closing the wizard, opening and closing the data and chat dialogs, and image upload.
- App.Journal.ConfirmImport: every imported record has a string `date`. The check looks only at the first record, so in the source a later record without a date reaches the comparator `b.date.localeCompare(a.date)` (App.tsx:216). There it may throw a TypeError, which the global error handler of index.tsx turns into a page replacement. Or, depending on the order in which the engine passes elements to the comparator, `localeCompare` may read the missing date as the string "undefined", sort the date-less record first and set the selected date to undefined. The model captures neither outcome.
- Strings.Trim: its own contract gives the length bound and the non-blank ends. That only white space is dropped is stated on `TrimStart` and `TrimEnd`, which it composes.
- The separate per-field hooks of the wizard and of the detail view's edit mode are grouped into one record per form.
- Rendering and browser plumbing are presentation: all JSX, the trade list, the confirmation dialog, the chat window and the entry point (service worker and global error handler).
