/** The records the dashboard exchanges: news items with their citations and
    the trading analysis of one item. Each TypeScript literal union is a
    datatype whose constructors stand for its literals. */
module Types {
  import opened Wrappers

  /** A citation: display name and link. */
  datatype NewsSource = NewsSource(name: string, url: string)

  /** News categories. `RealEstate` is not in the union the record type
      declares, but the fallback feed and the prompt both use it. */
  datatype Category = Forex | Stock | Crypto | Commodity | Macro | RealEstate

  datatype Importance = Low | Medium | High

  datatype NewsItem = NewsItem(
    id: string,
    time: string,
    content: string,
    rawContent: Option<string>,
    category: Category,
    importance: Importance,
    sources: Option<seq<NewsSource>>,
    region: Option<string>)

  datatype TradingSignal = Long | Short | Wait | Neutral

  datatype ImpactDuration = Scalp | Intraday | Swing | LongTerm

  /** Ticker actions: three English literals and their three Chinese counterparts. */
  datatype TickerAction = Buy | Sell | Watch | BuyZh | SellZh | WatchZh

  datatype Ticker = Ticker(symbol: string, action: TickerAction, priceTarget: Option<string>)

  /** The analysis of one item. The two scores are plain integers: their
      documented ranges are not part of the type, see `InDocumentedRange`. */
  datatype AnalysisResult = AnalysisResult(
    summary: string,
    sentimentScore: int,
    tradingSignal: TradingSignal,
    confidence: int,
    reasoning: seq<string>,
    impactDuration: ImpactDuration,
    tickers: seq<Ticker>)

  /** Sentiment in -10 (bearish) .. 10 (bullish) and confidence in 0 .. 100. */
  predicate InDocumentedRange(a: AnalysisResult) {
    -10 <= a.sentimentScore <= 10 && 0 <= a.confidence <= 100
  }

  /** The five categories the `NewsItem` record type admits. */
  predicate IsDeclaredCategory(c: Category) {
    c != RealEstate
  }

  /** The literal text of each category. */
  function CategoryName(c: Category): string {
    match c
    case Forex => "Forex"
    case Stock => "Stock"
    case Crypto => "Crypto"
    case Commodity => "Commodity"
    case Macro => "Macro"
    case RealEstate => "RealEstate"
  }

  /** Reads a category literal; any other text is not a category. */
  function ParseCategory(s: string): (r: Option<Category>)
    ensures r.Some? ==> CategoryName(r.value) == s
  {
    if s == "Forex" then Some(Forex)
    else if s == "Stock" then Some(Stock)
    else if s == "Crypto" then Some(Crypto)
    else if s == "Commodity" then Some(Commodity)
    else if s == "Macro" then Some(Macro)
    else if s == "RealEstate" then Some(RealEstate)
    else None
  }

  lemma CategoryNameRoundTrip(c: Category)
    ensures ParseCategory(CategoryName(c)) == Some(c)
  {
  }

  /** The literal text of each importance. */
  function ImportanceName(i: Importance): string {
    match i
    case Low => "Low"
    case Medium => "Medium"
    case High => "High"
  }

  /** The literal text of each trading signal. */
  function SignalName(s: TradingSignal): string {
    match s
    case Long => "LONG"
    case Short => "SHORT"
    case Wait => "WAIT"
    case Neutral => "NEUTRAL"
  }

  /** The literal text of each impact duration. */
  function DurationName(d: ImpactDuration): string {
    match d
    case Scalp => "Scalp (Mins)"
    case Intraday => "Intraday"
    case Swing => "Swing (Days)"
    case LongTerm => "Long Term"
  }

  /** The literal text of each ticker action. */
  function ActionName(a: TickerAction): string {
    match a
    case Buy => "Buy"
    case Sell => "Sell"
    case Watch => "Watch"
    case BuyZh => "买入"
    case SellZh => "卖出"
    case WatchZh => "观望"
  }

  /** Distinct literals: each union has exactly as many values as constructors. */
  lemma LiteralNamesDistinct()
    ensures forall a, b: Category :: CategoryName(a) == CategoryName(b) ==> a == b
    ensures forall a, b: Importance :: ImportanceName(a) == ImportanceName(b) ==> a == b
    ensures forall a, b: TradingSignal :: SignalName(a) == SignalName(b) ==> a == b
    ensures forall a, b: ImpactDuration :: DurationName(a) == DurationName(b) ==> a == b
    ensures forall a, b: TickerAction :: ActionName(a) == ActionName(b) ==> a == b
  {
  }
}
