/**
 * The record types of the journal: the closed enumerations and the `Trade` record.
 * Prices and profit/loss are integers counted in hundredths of a price point.
 */
module Types {
  import opened Wrappers

  datatype Asset = ES | NQ | GC

  datatype OrderType = Market | Limit | Stop

  datatype Direction = Long | Short

  datatype Strategy = TrendFollow | RangeFade | Reversal | WedgeReversal | Breakout | Pullback

  datatype TradeStatus = Open | Closed

  /** The four style tags: scalp, swing, breakout, reversal. */
  datatype TradeStyle = ScalpStyle | SwingStyle | BreakoutStyle | ReversalStyle

  /** Price in hundredths of a point (an ES tick of 0.25 is 25). */
  type Price = int

  datatype Trade = Trade(
    id: string,
    date: string,              // YYYY-MM-DD
    timestamp: int,
    // pre-trade check
    isEmotional: bool,
    marketContext: string,
    isKeyLevel: bool,
    confidence: int,           // documented as 1-100, not enforced
    style: TradeStyle,
    // trade details
    asset: Asset,
    timeframe: string,
    entryCandleNumber: Option<string>,
    strategy: Strategy,
    orderType: OrderType,
    direction: Direction,
    entryPrice: Price,
    stopLoss: Price,
    takeProfit: Option<Price>,
    // execution
    status: TradeStatus,
    exitPrice: Option<Price>,
    exitCandleNumber: Option<string>,
    pnlPoints: Option<Price>,
    // media and AI
    chartImage: Option<string>,
    aiFeedback: Option<string>,
    aiScore: Option<int>,      // documented as 0-10, not enforced
    userNotes: Option<string>,
    // declared, never read or written by any operation
    isDeleted: Option<bool>
  )

  datatype Role = User | Model

  datatype ChatMessage = ChatMessage(id: string, role: Role, text: string, timestamp: int)

  /** The position of each value in its declaration, used to prove the enumerations closed. */
  function AssetIndex(a: Asset): nat {
    match a case ES => 0 case NQ => 1 case GC => 2
  }

  function OrderTypeIndex(o: OrderType): nat {
    match o case Market => 0 case Limit => 1 case Stop => 2
  }

  function DirectionIndex(d: Direction): nat {
    match d case Long => 0 case Short => 1
  }

  function StrategyIndex(s: Strategy): nat {
    match s
    case TrendFollow => 0 case RangeFade => 1 case Reversal => 2
    case WedgeReversal => 3 case Breakout => 4 case Pullback => 5
  }

  function StatusIndex(s: TradeStatus): nat {
    match s case Open => 0 case Closed => 1
  }

  function StyleIndex(s: TradeStyle): nat {
    match s case ScalpStyle => 0 case SwingStyle => 1 case BreakoutStyle => 2 case ReversalStyle => 3
  }

  /** Every asset, each once: the enumeration is closed. */
  function AllAssets(): (r: seq<Asset>)
    ensures |r| == 3
    ensures forall a: Asset :: AssetIndex(a) < |r| && r[AssetIndex(a)] == a
    ensures forall i, j :: 0 <= i < j < |r| ==> r[i] != r[j]
  {
    [ES, NQ, GC]
  }

  function AllOrderTypes(): (r: seq<OrderType>)
    ensures |r| == 3
    ensures forall o: OrderType :: OrderTypeIndex(o) < |r| && r[OrderTypeIndex(o)] == o
    ensures forall i, j :: 0 <= i < j < |r| ==> r[i] != r[j]
  {
    [Market, Limit, Stop]
  }

  function AllDirections(): (r: seq<Direction>)
    ensures |r| == 2
    ensures forall d: Direction :: DirectionIndex(d) < |r| && r[DirectionIndex(d)] == d
    ensures forall i, j :: 0 <= i < j < |r| ==> r[i] != r[j]
  {
    [Long, Short]
  }

  function AllStrategies(): (r: seq<Strategy>)
    ensures |r| == 6
    ensures forall s: Strategy :: StrategyIndex(s) < |r| && r[StrategyIndex(s)] == s
    ensures forall i, j :: 0 <= i < j < |r| ==> r[i] != r[j]
  {
    [TrendFollow, RangeFade, Reversal, WedgeReversal, Breakout, Pullback]
  }

  function AllStatuses(): (r: seq<TradeStatus>)
    ensures |r| == 2
    ensures forall s: TradeStatus :: StatusIndex(s) < |r| && r[StatusIndex(s)] == s
    ensures forall i, j :: 0 <= i < j < |r| ==> r[i] != r[j]
  {
    [Open, Closed]
  }

  /** The order in which the forms list the styles. */
  function AllStyles(): (r: seq<TradeStyle>)
    ensures |r| == 4
    ensures forall s: TradeStyle :: StyleIndex(s) < |r| && r[StyleIndex(s)] == s
    ensures forall i, j :: 0 <= i < j < |r| ==> r[i] != r[j]
  {
    [ScalpStyle, SwingStyle, BreakoutStyle, ReversalStyle]
  }

  /** The direction multiplier: +1 for a long, -1 for a short. */
  function Sign(d: Direction): (r: int)
    ensures r == 1 || r == -1
    ensures r == 1 <==> d == Long
  {
    if d == Long then 1 else -1
  }

  /** Realised profit/loss of a position in points: positive when the price moved the trader's way. */
  function Pnl(d: Direction, entry: Price, exit: Price): (r: int)
    ensures d == Long ==> (r > 0 <==> exit > entry)
    ensures d == Short ==> (r > 0 <==> exit < entry)
    ensures r == 0 <==> exit == entry
  {
    (exit - entry) * Sign(d)
  }

  /** For the same prices, a long and a short earn exact opposites. */
  lemma PnlMirror(entry: Price, exit: Price)
    ensures Pnl(Long, entry, exit) == -Pnl(Short, entry, exit)
  {
  }

  /** One field of a `Trade`, used to state which fields an operation may change. */
  datatype Field =
    | IdField | DateField | TimestampField
    | IsEmotionalField | MarketContextField | IsKeyLevelField | ConfidenceField | StyleField
    | AssetField | TimeframeField | EntryCandleField | StrategyField | OrderTypeField
    | DirectionField | EntryPriceField | StopLossField | TakeProfitField
    | StatusField | ExitPriceField | ExitCandleField | PnlField
    | ChartImageField | AiFeedbackField | AiScoreField | UserNotesField | IsDeletedField

  predicate SameField(a: Trade, b: Trade, f: Field) {
    match f
    case IdField => a.id == b.id
    case DateField => a.date == b.date
    case TimestampField => a.timestamp == b.timestamp
    case IsEmotionalField => a.isEmotional == b.isEmotional
    case MarketContextField => a.marketContext == b.marketContext
    case IsKeyLevelField => a.isKeyLevel == b.isKeyLevel
    case ConfidenceField => a.confidence == b.confidence
    case StyleField => a.style == b.style
    case AssetField => a.asset == b.asset
    case TimeframeField => a.timeframe == b.timeframe
    case EntryCandleField => a.entryCandleNumber == b.entryCandleNumber
    case StrategyField => a.strategy == b.strategy
    case OrderTypeField => a.orderType == b.orderType
    case DirectionField => a.direction == b.direction
    case EntryPriceField => a.entryPrice == b.entryPrice
    case StopLossField => a.stopLoss == b.stopLoss
    case TakeProfitField => a.takeProfit == b.takeProfit
    case StatusField => a.status == b.status
    case ExitPriceField => a.exitPrice == b.exitPrice
    case ExitCandleField => a.exitCandleNumber == b.exitCandleNumber
    case PnlField => a.pnlPoints == b.pnlPoints
    case ChartImageField => a.chartImage == b.chartImage
    case AiFeedbackField => a.aiFeedback == b.aiFeedback
    case AiScoreField => a.aiScore == b.aiScore
    case UserNotesField => a.userNotes == b.userNotes
    case IsDeletedField => a.isDeleted == b.isDeleted
  }

  /** `b` agrees with `a` on every field outside `fs`. */
  predicate OnlyChanged(a: Trade, b: Trade, fs: set<Field>) {
    forall f :: f !in fs ==> SameField(a, b, f)
  }

  /** Changes confined to `s` followed by changes confined to `t` are confined to both. */
  lemma OnlyChangedCompose(a: Trade, b: Trade, c: Trade, s: set<Field>, t: set<Field>)
    requires OnlyChanged(a, b, s) && OnlyChanged(b, c, t)
    ensures OnlyChanged(a, c, s + t)
  {
    forall f | f !in s + t ensures SameField(a, c, f) {
      assert SameField(a, b, f) && SameField(b, c, f);
    }
  }

  /**
   * Consistency of the execution block: a closed trade carries an exit price and the pnl
   * that exit implies. (Open trades are not required to lack an exit price: the forms can
   * leave one on an open trade.)
   */
  predicate ClosedConsistent(t: Trade) {
    t.status == Closed ==>
      t.exitPrice.Some? && t.pnlPoints == Some(Pnl(t.direction, t.entryPrice, t.exitPrice.value))
  }
}
