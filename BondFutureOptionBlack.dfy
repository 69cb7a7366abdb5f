/**
 * BondFutureOptionBlackCalculator: construction of the calculator, and the
 * choice of the last margin price the instrument derivative is built with.
 * The converter, the derivative conversion and the Black pricing itself are
 * foreign analytics and stay abstract.
 */
module BondFutureOptionBlack {

  import opened Base

  /** MarketDataRequirementNames.MARKET_VALUE (defined outside this model). */
  const MARKET_VALUE: string := "Market_Value"

  /** The underlying trade: its trade date (a day number) and its premium. */
  datatype Trade = Trade(tradeDate: int, premium: real)

  /** The option security: its external-id bundle (as a key) and its currency. */
  datatype Security = Security(externalIdBundle: string, currency: string)

  /** The BondFutureOptionTrade wrapper: the trade and its security. */
  datatype BondFutureOptionTrade = BondFutureOptionTrade(trade: Trade, security: Security)

  /** A ZonedDateTime: its local date (a day number) and the rest, kept opaque. */
  datatype ValuationTime = ValuationTime(date: int, timeOfDay: int)

  /** A historical time series: (date, value) points. */
  datatype TimeSeries = TimeSeries(points: seq<(int, real)>)

  /** A date series is stored in date order, without repeated dates. */
  predicate Chronological(ts: TimeSeries)
  {
    forall i, j :: 0 <= i < j < |ts.points| ==> ts.points[i].0 < ts.points[j].0
  }

  /** The HistoricalTimeSeriesBundle: a series by (data field, external-id bundle); absent means null. */
  type TimeSeriesBundle = map<(string, string), TimeSeries>

  /** What the converter produces: a definition that needs a price, or one that does not. */
  datatype InstrumentDefinition = DefinitionWithData(token: int) | DefinitionWithoutData(token: int)

  /** The trade converter, with its conversion left abstract. */
  datatype Converter = Converter(convert: Trade -> InstrumentDefinition)

  /** The instrument derivative, recorded by the arguments of the toDerivative call that builds it. */
  datatype InstrumentDerivative =
    | DerivativeWithPrice(definition: int, valTime: ValuationTime, lastMarginPrice: real)
    | DerivativeWithoutPrice(definition: int, valTime: ValuationTime)

  /** The constructed calculator's fields; `black` is the opaque Black volatility provider. */
  datatype BondFutureOptionBlackCalculator =
    BondFutureOptionBlackCalculator(derivative: InstrumentDerivative, black: int, currency: string)

  /** The latest date of a non-empty series, by an explicit maximum. */
  function LatestDate(points: seq<(int, real)>): (d: int)
    requires points != []
    ensures forall i :: 0 <= i < |points| ==> points[i].0 <= d
    ensures exists i :: 0 <= i < |points| && points[i].0 == d
  {
    if |points| == 1 then points[0].0
    else
      var rest := LatestDate(points[1..]);
      assert forall i :: 1 <= i < |points| ==> points[i] == points[1..][i - 1];
      if points[0].0 < rest then rest else points[0].0
  }

  /** getLatestValue: the value of the last stored point. */
  function LatestValue(ts: TimeSeries): (v: real)
    requires ts.points != []
  {
    ts.points[|ts.points| - 1].1
  }

  /** In a chronological series no point is later than the last one. */
  lemma ChronologicalLastIsLatest(ts: TimeSeries, i: nat)
    requires Chronological(ts) && i < |ts.points|
    ensures ts.points[i].0 <= ts.points[|ts.points| - 1].0
  {
  }

  /** In a chronological series a date occurs at one index only. */
  lemma ChronologicalDatesAreUnique(ts: TimeSeries, i: nat, j: nat)
    requires Chronological(ts) && i < |ts.points| && j < |ts.points| && ts.points[i].0 == ts.points[j].0
    ensures i == j
  {
  }

  /** In a chronological series the last stored point is the one at the latest date. */
  lemma LatestValueIsAtLatestDate(ts: TimeSeries)
    requires Chronological(ts) && ts.points != []
    ensures ts.points[|ts.points| - 1].0 == LatestDate(ts.points)
    ensures forall i :: 0 <= i < |ts.points| && ts.points[i].0 == LatestDate(ts.points) ==> ts.points[i].1 == LatestValue(ts)
  {
    var n := |ts.points|;
    var d := LatestDate(ts.points);
    var k :| 0 <= k < n && ts.points[k].0 == d;
    ChronologicalLastIsLatest(ts, k);
    forall i | 0 <= i < n && ts.points[i].0 == d
      ensures ts.points[i].1 == LatestValue(ts)
    {
      ChronologicalDatesAreUnique(ts, i, n - 1);
    }
  }

  /** The key the price series is sought under. */
  function SeriesKey(security: Security): (key: (string, string))
  {
    (MARKET_VALUE, security.externalIdBundle)
  }

  /**
   * The last margin price: the premium when valuing on the trade date (the
   * series is then not consulted); otherwise the latest value of the price
   * series, which must exist and be non-empty.
   */
  function LastMarginPrice(tradeWrapper: BondFutureOptionTrade, valTime: ValuationTime, timeSeries: TimeSeriesBundle)
    : (r: Result<real>)
    ensures valTime.date == tradeWrapper.trade.tradeDate ==> r == Success(tradeWrapper.trade.premium)
    ensures valTime.date != tradeWrapper.trade.tradeDate ==>
      var key := SeriesKey(tradeWrapper.security);
      (key !in timeSeries ==> r.Failure? && r.error.Runtime?) &&
      (key in timeSeries && timeSeries[key].points == [] ==> r.Failure? && r.error.Runtime?) &&
      (key in timeSeries && timeSeries[key].points != [] ==> r == Success(LatestValue(timeSeries[key])))
  {
    var security := tradeWrapper.security;
    var key := SeriesKey(security);
    if valTime.date == tradeWrapper.trade.tradeDate then Success(tradeWrapper.trade.premium)
    else if key !in timeSeries then Failure(Runtime("Could not get price time series"))
    else if |timeSeries[key].points| == 0 then Failure(Runtime("Price time series was empty"))
    else Success(LatestValue(timeSeries[key]))
  }

  /**
   * createInstrumentDerivative: a definition with data is converted with
   * the valuation time and the last margin price; any other definition with
   * the valuation time only, so no price is selected and no error raised.
   */
  function CreateInstrumentDerivative(tradeWrapper: BondFutureOptionTrade, converter: Converter,
                                      valTime: ValuationTime, timeSeries: TimeSeriesBundle)
    : (r: Result<InstrumentDerivative>)
    ensures converter.convert(tradeWrapper.trade).DefinitionWithoutData? ==>
      r == Success(DerivativeWithoutPrice(converter.convert(tradeWrapper.trade).token, valTime))
    ensures converter.convert(tradeWrapper.trade).DefinitionWithData? ==>
      (r.Failure? <==> LastMarginPrice(tradeWrapper, valTime, timeSeries).Failure?) &&
      (r.Failure? ==> r.error == LastMarginPrice(tradeWrapper, valTime, timeSeries).error) &&
      (r.Success? ==> r.value.DerivativeWithPrice? && r.value.valTime == valTime
                      && r.value.definition == converter.convert(tradeWrapper.trade).token
                      && r.value.lastMarginPrice == LastMarginPrice(tradeWrapper, valTime, timeSeries).value)
  {
    var definition := converter.convert(tradeWrapper.trade);
    match definition
    case DefinitionWithData(token) =>
      (match LastMarginPrice(tradeWrapper, valTime, timeSeries)
       case Failure(e) => Failure(e)
       case Success(price) => Success(DerivativeWithPrice(token, valTime, price)))
    case DefinitionWithoutData(token) => Success(DerivativeWithoutPrice(token, valTime))
  }

  /** On the trade date the derivative is priced off the premium, whatever the series bundle holds. */
  lemma TradeDateIgnoresSeries(tradeWrapper: BondFutureOptionTrade, converter: Converter, valTime: ValuationTime,
                               s1: TimeSeriesBundle, s2: TimeSeriesBundle)
    requires valTime.date == tradeWrapper.trade.tradeDate
    ensures CreateInstrumentDerivative(tradeWrapper, converter, valTime, s1)
         == CreateInstrumentDerivative(tradeWrapper, converter, valTime, s2)
    ensures CreateInstrumentDerivative(tradeWrapper, converter, valTime, s1).Success?
  {
  }

  /**
   * The constructor: trade, converter, valuation time and fixings are
   * checked for null in that order before the derivative is built; the
   * Black provider is checked only afterwards.
   */
  function NewCalculator(trade: Option<BondFutureOptionTrade>, converter: Option<Converter>, black: Option<int>,
                         valTime: Option<ValuationTime>, fixings: Option<TimeSeriesBundle>)
    : (r: Result<BondFutureOptionBlackCalculator>)
    ensures trade.None? ==> r == Failure(NullArgument("trade"))
    ensures trade.Some? && converter.None? ==> r == Failure(NullArgument("converter"))
    ensures trade.Some? && converter.Some? && valTime.None? ==> r == Failure(NullArgument("valTime"))
    ensures trade.Some? && converter.Some? && valTime.Some? && fixings.None? ==> r == Failure(NullArgument("fixings"))
    ensures trade.Some? && converter.Some? && valTime.Some? && fixings.Some? ==>
      var d := CreateInstrumentDerivative(trade.value, converter.value, valTime.value, fixings.value);
      (d.Failure? ==> r == Failure(d.error)) &&
      (d.Success? && black.None? ==> r == Failure(NullArgument("black"))) &&
      (d.Success? && black.Some? ==> r == Success(BondFutureOptionBlackCalculator(d.value, black.value,
                                                                                 trade.value.security.currency)))
  {
    if trade.None? then Failure(NullArgument("trade"))
    else if converter.None? then Failure(NullArgument("converter"))
    else if valTime.None? then Failure(NullArgument("valTime"))
    else if fixings.None? then Failure(NullArgument("fixings"))
    else
      match CreateInstrumentDerivative(trade.value, converter.value, valTime.value, fixings.value)
      case Failure(e) => Failure(e)
      case Success(derivative) =>
        if black.None? then Failure(NullArgument("black"))
        else Success(BondFutureOptionBlackCalculator(derivative, black.value, trade.value.security.currency))
  }

  /** A calculator is built exactly when every argument is present and the margin price, if needed, is found. */
  lemma NewCalculatorSucceedsIff(trade: Option<BondFutureOptionTrade>, converter: Option<Converter>, black: Option<int>,
                                 valTime: Option<ValuationTime>, fixings: Option<TimeSeriesBundle>)
    ensures NewCalculator(trade, converter, black, valTime, fixings).Success?
        <==> trade.Some? && converter.Some? && black.Some? && valTime.Some? && fixings.Some?
             && (converter.value.convert(trade.value.trade).DefinitionWithData?
                 ==> LastMarginPrice(trade.value, valTime.value, fixings.value).Success?)
  {
  }
}
