/** The field normaliser: safe_convert and parse_stock_info, which turn the
    provider's untyped attribute bag into a stock_details row of fixed shape. */
module Normalizer {
  import opened PyValues

  /** The four target types safe_convert is called with. */
  datatype Kind = IntKind | FloatKind | StrKind | BoolKind

  /** The two conversions between floats and text that the model leaves
      uninterpreted: `float(s)` on a string (None where Python raises
      ValueError) and `str(f)` on a float. */
  datatype FloatText = FloatText(parse: string -> Option<PyFloat>, format: PyFloat -> string)

  /** `value is None or value == ""`: the inputs safe_convert treats as missing. */
  predicate IsMissing(v: Value) {
    v == Null || v == Str("")
  }

  /** `isinstance(value, (int, float, str))`; a bool is an int in Python. */
  predicate IsNumeric(v: Value) {
    v.Int? || v.Bool? || v.Float? || v.Str?
  }

  /** `float(value)` for a value that passed the isinstance test. */
  function FloatOf(ft: FloatText, v: Value): Option<PyFloat>
    requires IsNumeric(v)
  {
    match v
    case Int(i) => Some(Finite(i as real))
    case Bool(b) => Some(Finite(if b then 1.0 else 0.0))
    case Float(f) => Some(f)
    case Str(s) => ft.parse(s)
  }

  /** `int(x)` on a finite float: truncation toward zero. */
  function Truncate(x: real): (n: int)
    ensures x >= 0.0 ==> n as real <= x < n as real + 1.0
    ensures x < 0.0 ==> n as real - 1.0 < x <= n as real
  {
    if x >= 0.0 then x.Floor else -((-x).Floor)
  }

  predicate IsDigit(c: char) {
    '0' <= c <= '9'
  }

  /** The number a string of decimal digits denotes. */
  function DigitsValue(s: string): nat
    requires forall i :: 0 <= i < |s| ==> IsDigit(s[i])
  {
    if s == [] then 0
    else
      assert IsDigit(s[|s| - 1]);
      DigitsValue(s[..|s| - 1]) * 10 + (s[|s| - 1] as int - '0' as int)
  }

  /** `int(s)` on a string that is an optional minus sign and decimal digits. */
  function IntOfText(s: string): int
    requires |s| > 0
    requires s[0] == '-' ==> |s| > 1
    requires forall i :: (if s[0] == '-' then 1 else 0) <= i < |s| ==> IsDigit(s[i])
  {
    if s[0] == '-' then -(DigitsValue(s[1..]) as int) else DigitsValue(s)
  }

  /** The decimal digits of `n`: no leading zero, and they denote `n`. */
  function DecimalDigits(n: nat): (s: string)
    ensures |s| > 0
    ensures forall i :: 0 <= i < |s| ==> IsDigit(s[i])
    ensures DigitsValue(s) == n
    ensures s[0] == '0' ==> n == 0
  {
    var d := ['0' as int as char + (n % 10) as char];
    if n < 10 then d
    else
      var init := DecimalDigits(n / 10);
      assert (init + d)[..|init + d| - 1] == init;
      init + d
  }

  /** `str(v)` for a value that is not None. For an int it is the text `int()`
      reads back as the same int. */
  function StrOf(ft: FloatText, v: Value): (r: string)
    requires v != Null
    ensures v.Str? ==> r == v.s
    ensures v.Int? ==>
              && |r| > 0
              && (r[0] == '-' <==> v.i < 0)
              && (r[0] == '-' ==> |r| > 1)
              && (forall i :: (if r[0] == '-' then 1 else 0) <= i < |r| ==> IsDigit(r[i]))
              && IntOfText(r) == v.i
    ensures v.Bool? ==> r in {"True", "False"} && (r == "True" <==> v.b)
  {
    match v
    case Str(s) => s
    case Int(i) => if i < 0 then "-" + DecimalDigits(-i) else DecimalDigits(i)
    case Bool(b) => if b then "True" else "False"
    case Float(f) => ft.format(f)
    case Other(text, _) => text
  }

  /** `bool(v)`: None, zero and the empty string are false; NaN is true. */
  function Truthy(v: Value): (r: bool)
    ensures IsMissing(v) ==> !r
    ensures v.Str? ==> (r <==> |v.s| > 0)
    ensures v.Int? ==> (r <==> v.i != 0)
    ensures v.Float? ==> (r <==> !(v.f.Finite? && v.f.x == 0.0))
  {
    match v
    case Null => false
    case Str(s) => s != ""
    case Int(i) => i != 0
    case Bool(b) => b
    case Float(f) => f != Finite(0.0)
    case Other(_, t) => t
  }

  /** A converted value is None or of the requested kind. */
  predicate OfKind(v: Value, kind: Kind) {
    v == Null ||
    match kind
    case IntKind => v.Int?
    case FloatKind => v.Float?
    case StrKind => v.Str?
    case BoolKind => v.Bool?
  }

  /** What safe_convert does as written: it catches ValueError and TypeError
      but not the OverflowError that `int()` raises on an infinite float. */
  datatype Conversion = Converted(value: Value) | Overflowed

  function SafeConvertAsWritten(ft: FloatText, v: Value, kind: Kind): (c: Conversion)
    ensures c.Overflowed? <==>
              kind == IntKind && !IsMissing(v) && IsNumeric(v) && FloatOf(ft, v).Some? && FloatOf(ft, v).value.Infinity?
  {
    if IsMissing(v) then Converted(Null)
    else
      match kind
      case IntKind =>
        if !IsNumeric(v) then Converted(Null)
        else (
          match FloatOf(ft, v)
          case None => Converted(Null)                        // ValueError from float()
          case Some(Finite(x)) => Converted(Int(Truncate(x)))
          case Some(NaN) => Converted(Null)                   // ValueError from int()
          case Some(Infinity(_)) => Overflowed)               // OverflowError from int()
      case FloatKind =>
        if !IsNumeric(v) then Converted(Null)
        else (
          match FloatOf(ft, v)
          case None => Converted(Null)
          case Some(f) => Converted(Float(f)))
      case StrKind => Converted(Str(StrOf(ft, v)))
      case BoolKind => Converted(Bool(Truthy(v)))
  }

  /** safe_convert as its own description promises: None whenever the
      conversion fails, an infinite float given to the int target included. */
  function SafeConvert(ft: FloatText, v: Value, kind: Kind): (r: Value)
    ensures IsMissing(v) ==> r == Null
    ensures OfKind(r, kind)
    ensures (kind == IntKind || kind == FloatKind) && !IsNumeric(v) ==> r == Null
    ensures (kind == StrKind || kind == BoolKind) && !IsMissing(v) ==> r != Null
    ensures kind == FloatKind && !IsMissing(v) && IsNumeric(v) ==>
              (FloatOf(ft, v).None? ==> r == Null) && (FloatOf(ft, v).Some? ==> r == Float(FloatOf(ft, v).value))
    ensures kind == IntKind && !IsMissing(v) && IsNumeric(v) && FloatOf(ft, v).Some? && FloatOf(ft, v).value.Finite? ==>
              r == Int(Truncate(FloatOf(ft, v).value.x))
    ensures kind == StrKind && !IsMissing(v) ==> r == Str(StrOf(ft, v))
    ensures kind == BoolKind && !IsMissing(v) ==> r == Bool(Truthy(v))
  {
    match SafeConvertAsWritten(ft, v, kind)
    case Converted(r) => r
    case Overflowed => Null
  }

  /** Where safe_convert as written returns, the corrected one agrees with it;
      only the escaping OverflowError is replaced by None. */
  lemma SafeConvertAgreesWhereWrittenReturns(ft: FloatText, v: Value, kind: Kind)
    ensures SafeConvertAsWritten(ft, v, kind).Converted? ==>
              SafeConvertAsWritten(ft, v, kind).value == SafeConvert(ft, v, kind)
    ensures SafeConvertAsWritten(ft, v, kind).Overflowed? ==> SafeConvert(ft, v, kind) == Null
  {
  }

  /** The int target goes through float: it is the float target's result
      truncated toward zero, and None where that is None, NaN or infinite. */
  lemma IntTruncatesThroughFloat(ft: FloatText, v: Value)
    ensures SafeConvert(ft, v, IntKind) ==
              match SafeConvert(ft, v, FloatKind)
              case Float(Finite(x)) => Int(Truncate(x))
              case _ => Null
  {
  }

  /** An int converts to itself, and so does a non-empty string under str. */
  lemma ConvertRoundTrips(ft: FloatText, i: int, s: string)
    ensures SafeConvert(ft, Int(i), IntKind) == Int(i)
    ensures SafeConvert(ft, Int(i), FloatKind) == Float(Finite(i as real))
    ensures s != "" ==> SafeConvert(ft, Str(s), StrKind) == Str(s)
  {
  }

  /** OverflowError escapes safe_convert as written: an infinite float, or a
      string that parses to +inf (such as "inf"), given to the int target. */
  lemma OverflowEscapesAsWritten(ft: FloatText, s: string)
    requires s != "" && ft.parse(s) == Some(Infinity(false))
    ensures SafeConvertAsWritten(ft, Float(Infinity(false)), IntKind) == Overflowed
    ensures SafeConvertAsWritten(ft, Float(Infinity(true)), IntKind) == Overflowed
    ensures SafeConvert(ft, Float(Infinity(false)), IntKind) == Null
    ensures SafeConvert(ft, Float(Infinity(true)), IntKind) == Null
    ensures SafeConvertAsWritten(ft, Str(s), IntKind) == Overflowed
    ensures SafeConvert(ft, Str(s), IntKind) == Null
  {
  }

  /** One entry of the fixed output schema: output column, source key, kind. */
  datatype FieldSpec = FieldSpec(name: string, key: string, kind: Kind)

  // The coerced columns of a stock_details row, group by group in the order
  // the source lists them (current_price and updated_at are filled in apart).

  /** Basic Info */
  const BasicInfo: seq<FieldSpec> := [
    FieldSpec("symbol", "symbol", StrKind),
    FieldSpec("short_name", "shortName", StrKind),
    FieldSpec("long_name", "longName", StrKind),
    FieldSpec("exchange", "exchange", StrKind),
    FieldSpec("currency", "currency", StrKind),
    FieldSpec("quote_type", "quoteType", StrKind),
    FieldSpec("market", "market", StrKind),
    FieldSpec("time_zone", "timeZoneFullName", StrKind)
  ]

  /** Company Info */
  const CompanyInfo: seq<FieldSpec> := [
    FieldSpec("sector", "sector", StrKind),
    FieldSpec("industry", "industry", StrKind),
    FieldSpec("full_time_employees", "fullTimeEmployees", IntKind),
    FieldSpec("business_summary", "longBusinessSummary", StrKind),
    FieldSpec("website", "website", StrKind),
    FieldSpec("address1", "address1", StrKind),
    FieldSpec("city", "city", StrKind),
    FieldSpec("zip_code", "zip", StrKind),
    FieldSpec("country", "country", StrKind),
    FieldSpec("phone", "phone", StrKind)
  ]

  /** Financial Metrics */
  const FinancialMetrics: seq<FieldSpec> := [
    FieldSpec("market_cap", "marketCap", IntKind),
    FieldSpec("enterprise_value", "enterpriseValue", IntKind),
    FieldSpec("shares_outstanding", "sharesOutstanding", IntKind),
    FieldSpec("float_shares", "floatShares", IntKind),
    FieldSpec("shares_short", "sharesShort", IntKind),
    FieldSpec("book_value", "bookValue", FloatKind),
    FieldSpec("price_to_book", "priceToBook", FloatKind)
  ]

  /** Price Metrics */
  const PriceMetrics: seq<FieldSpec> := [
    FieldSpec("previous_close", "previousClose", FloatKind),
    FieldSpec("open_price", "open", FloatKind),
    FieldSpec("day_low", "dayLow", FloatKind),
    FieldSpec("day_high", "dayHigh", FloatKind),
    FieldSpec("fifty_two_week_low", "fiftyTwoWeekLow", FloatKind),
    FieldSpec("fifty_two_week_high", "fiftyTwoWeekHigh", FloatKind),
    FieldSpec("fifty_day_average", "fiftyDayAverage", FloatKind),
    FieldSpec("two_hundred_day_average", "twoHundredDayAverage", FloatKind)
  ]

  /** Valuation Ratios */
  const ValuationRatios: seq<FieldSpec> := [
    FieldSpec("pe_ratio", "trailingPE", FloatKind),
    FieldSpec("forward_pe", "forwardPE", FloatKind),
    FieldSpec("peg_ratio", "trailingPegRatio", FloatKind),
    FieldSpec("price_to_sales", "priceToSalesTrailing12Months", FloatKind),
    FieldSpec("enterprise_to_revenue", "enterpriseToRevenue", FloatKind),
    FieldSpec("enterprise_to_ebitda", "enterpriseToEbitda", FloatKind)
  ]

  /** Profitability Metrics */
  const ProfitabilityMetrics: seq<FieldSpec> := [
    FieldSpec("profit_margin", "profitMargins", FloatKind),
    FieldSpec("operating_margin", "operatingMargins", FloatKind),
    FieldSpec("return_on_assets", "returnOnAssets", FloatKind),
    FieldSpec("return_on_equity", "returnOnEquity", FloatKind),
    FieldSpec("revenue_growth", "revenueGrowth", FloatKind),
    FieldSpec("earnings_growth", "earningsGrowth", FloatKind)
  ]

  /** Financial Statements Data */
  const FinancialStatements: seq<FieldSpec> := [
    FieldSpec("total_revenue", "totalRevenue", IntKind),
    FieldSpec("revenue_per_share", "revenuePerShare", FloatKind),
    FieldSpec("total_cash", "totalCash", IntKind),
    FieldSpec("total_cash_per_share", "totalCashPerShare", FloatKind),
    FieldSpec("total_debt", "totalDebt", IntKind),
    FieldSpec("debt_to_equity", "debtToEquity", FloatKind),
    FieldSpec("current_ratio", "currentRatio", FloatKind),
    FieldSpec("quick_ratio", "quickRatio", FloatKind)
  ]

  /** Earnings Data */
  const EarningsData: seq<FieldSpec> := [
    FieldSpec("trailing_eps", "trailingEps", FloatKind),
    FieldSpec("forward_eps", "forwardEps", FloatKind),
    FieldSpec("earnings_quarterly_growth", "earningsQuarterlyGrowth", FloatKind)
  ]

  /** Dividend Info */
  const DividendInfo: seq<FieldSpec> := [
    FieldSpec("dividend_rate", "dividendRate", FloatKind),
    FieldSpec("dividend_yield", "dividendYield", FloatKind),
    FieldSpec("payout_ratio", "payoutRatio", FloatKind),
    FieldSpec("five_year_avg_dividend_yield", "fiveYearAvgDividendYield", FloatKind)
  ]

  /** Volume and Trading */
  const VolumeAndTrading: seq<FieldSpec> := [
    FieldSpec("volume", "volume", IntKind),
    FieldSpec("regular_market_volume", "regularMarketVolume", IntKind),
    FieldSpec("average_volume", "averageVolume", IntKind),
    FieldSpec("average_volume_10days", "averageVolume10days", IntKind),
    FieldSpec("average_daily_volume_10day", "averageDailyVolume10Day", IntKind)
  ]

  /** Beta and Risk */
  const BetaAndRisk: seq<FieldSpec> := [
    FieldSpec("beta", "beta", FloatKind)
  ]

  /** Recommendations */
  const Recommendations: seq<FieldSpec> := [
    FieldSpec("recommendation_mean", "recommendationMean", FloatKind),
    FieldSpec("recommendation_key", "recommendationKey", StrKind),
    FieldSpec("number_of_analyst_opinions", "numberOfAnalystOpinions", IntKind)
  ]

  /** Target Prices */
  const TargetPrices: seq<FieldSpec> := [
    FieldSpec("target_high_price", "targetHighPrice", FloatKind),
    FieldSpec("target_low_price", "targetLowPrice", FloatKind),
    FieldSpec("target_mean_price", "targetMeanPrice", FloatKind),
    FieldSpec("target_median_price", "targetMedianPrice", FloatKind)
  ]

  /** Timestamps */
  const Timestamps: seq<FieldSpec> := [
    FieldSpec("last_split_date", "lastSplitDate", IntKind),
    FieldSpec("last_dividend_date", "lastDividendDate", IntKind),
    FieldSpec("ex_dividend_date", "exDividendDate", IntKind)
  ]

  /** Additional Fields */
  const AdditionalFields: seq<FieldSpec> := [
    FieldSpec("governance_epoch_date", "governanceEpochDate", IntKind),
    FieldSpec("compensation_risk", "compensationRisk", IntKind),
    FieldSpec("shareholder_rights_risk", "shareHolderRightsRisk", IntKind),
    FieldSpec("overall_risk", "overallRisk", IntKind),
    FieldSpec("board_risk", "boardRisk", IntKind),
    FieldSpec("audit_risk", "auditRisk", IntKind)
  ]

  /** All coerced columns, in source order. */
  const Fields: seq<FieldSpec> :=
    BasicInfo + CompanyInfo + FinancialMetrics + PriceMetrics + ValuationRatios
    + ProfitabilityMetrics + FinancialStatements + EarningsData + DividendInfo + VolumeAndTrading
    + BetaAndRisk + Recommendations + TargetPrices + Timestamps + AdditionalFields

  function Names(table: seq<FieldSpec>): set<string> {
    set s | s in table :: s.name
  }

  /** The entry that fills column `name`; as in a dict literal, the last one
      listed wins. */
  function Lookup(table: seq<FieldSpec>, name: string): (s: FieldSpec)
    requires name in Names(table)
    ensures s in table && s.name == name
    decreases |table|
  {
    var last := table[|table| - 1];
    if last.name == name then last
    else
      assert name in Names(table[..|table| - 1]) by {
        var w :| w in table && w.name == name;
        var k :| 0 <= k < |table| && table[k] == w;
        assert table[..|table| - 1][k] == w;
      }
      Lookup(table[..|table| - 1], name)
  }

  /** The columns of every row parse_stock_info returns. */
  const DetailColumns: set<string> := Names(Fields) + {"current_price", "updated_at"}

  /** current_price: str(currentPrice) when present and non-empty, else
      str(regularMarketPrice) when that is, else None. */
  function CurrentPrice(ft: FloatText, info: Row): (r: Value)
    ensures r == Null || r.Str?
  {
    var primary := SafeConvert(ft, Get(info, "currentPrice"), StrKind);
    if primary != Null then primary
    else SafeConvert(ft, Get(info, "regularMarketPrice"), StrKind)
  }

  /** `key` is in the bag with a value that is neither None nor "". */
  predicate Present(info: Row, key: string) {
    key in info && !IsMissing(info[key])
  }

  lemma CurrentPriceFallback(ft: FloatText, info: Row)
    ensures Present(info, "currentPrice") ==>
              CurrentPrice(ft, info) == Str(StrOf(ft, info["currentPrice"]))
    ensures !Present(info, "currentPrice") && Present(info, "regularMarketPrice") ==>
              CurrentPrice(ft, info) == Str(StrOf(ft, info["regularMarketPrice"]))
    ensures !Present(info, "currentPrice") && !Present(info, "regularMarketPrice") ==>
              CurrentPrice(ft, info) == Null
  {
  }

  /** One column per schema entry of `table`, the coerced value of its source
      key; current_price by the fallback; updated_at the clock reading `stamp`
      (its ISO text). */
  function ParseWith(table: seq<FieldSpec>, ft: FloatText, info: Row, stamp: string): (r: Row)
    ensures r.Keys == Names(table) + {"current_price", "updated_at"}
    ensures r["current_price"] == CurrentPrice(ft, info)
    ensures r["updated_at"] == Str(stamp)
    ensures forall n :: n in Names(table) && n != "current_price" && n != "updated_at" ==>
              r[n] == SafeConvert(ft, Get(info, Lookup(table, n).key), Lookup(table, n).kind)
  {
    var coerced := map n | n in Names(table) :: SafeConvert(ft, Get(info, Lookup(table, n).key), Lookup(table, n).kind);
    coerced["current_price" := CurrentPrice(ft, info)]["updated_at" := Str(stamp)]
  }

  /** parse_stock_info */
  function ParseStockInfo(ft: FloatText, info: Row, stamp: string): (r: Row)
    ensures r.Keys == DetailColumns
    ensures r["current_price"] == CurrentPrice(ft, info)
    ensures r["updated_at"] == Str(stamp)
    ensures forall n :: n in Names(Fields) && n != "current_price" && n != "updated_at" ==>
              r[n] == SafeConvert(ft, Get(info, Lookup(Fields, n).key), Lookup(Fields, n).kind)
  {
    ParseWith(Fields, ft, info, stamp)
  }

  /** The output has the same columns whatever the input; a column whose
      source key is absent is None, and every column is None or of its kind. */
  lemma ParseStockInfoShape(ft: FloatText, info: Row, other: Row, stamp: string, n: string)
    requires n in Names(Fields) && n != "current_price" && n != "updated_at"
    ensures ParseStockInfo(ft, info, stamp).Keys == ParseStockInfo(ft, other, stamp).Keys
    ensures Lookup(Fields, n).key !in info ==> ParseStockInfo(ft, info, stamp)[n] == Null
    ensures OfKind(ParseStockInfo(ft, info, stamp)[n], Lookup(Fields, n).kind)
  {
  }

  /** The row the dict literal builds when none of its safe_convert calls
      raises: every column from safe_convert as written. */
  function WrittenRow(table: seq<FieldSpec>, ft: FloatText, info: Row, stamp: string): Row
    requires forall s :: s in table ==> SafeConvertAsWritten(ft, Get(info, s.key), s.kind).Converted?
  {
    var coerced := map n | n in Names(table) ::
                     SafeConvertAsWritten(ft, Get(info, Lookup(table, n).key), Lookup(table, n).kind).value;
    var primary := SafeConvertAsWritten(ft, Get(info, "currentPrice"), StrKind).value;
    var price := if primary != Null then primary
                 else SafeConvertAsWritten(ft, Get(info, "regularMarketPrice"), StrKind).value;
    coerced["current_price" := price]["updated_at" := Str(stamp)]
  }

  /** Where no conversion raises, the literal as written builds the corrected row. */
  lemma WrittenRowIsCorrected(table: seq<FieldSpec>, ft: FloatText, info: Row, stamp: string)
    requires forall s :: s in table ==> SafeConvertAsWritten(ft, Get(info, s.key), s.kind).Converted?
    ensures WrittenRow(table, ft, info, stamp) == ParseWith(table, ft, info, stamp)
  {
    var w := WrittenRow(table, ft, info, stamp);
    var c := ParseWith(table, ft, info, stamp);
    forall n | n in Names(table) && n != "current_price" && n != "updated_at"
      ensures w[n] == c[n]
    {
      var s := Lookup(table, n);
      SafeConvertAgreesWhereWrittenReturns(ft, Get(info, s.key), s.kind);
    }
    SafeConvertAgreesWhereWrittenReturns(ft, Get(info, "currentPrice"), StrKind);
    SafeConvertAgreesWhereWrittenReturns(ft, Get(info, "regularMarketPrice"), StrKind);
    assert w["current_price"] == c["current_price"];
  }

  /** parse_stock_info as written: None when an OverflowError escapes from
      one of its safe_convert calls (every entry of the literal is evaluated);
      otherwise the row it builds is the corrected one. */
  function ParseStockInfoAsWritten(ft: FloatText, info: Row, stamp: string): (r: Option<Row>)
    ensures r.Some? ==> r.value == ParseStockInfo(ft, info, stamp)
    ensures r.None? <==> exists s :: s in Fields && SafeConvertAsWritten(ft, Get(info, s.key), s.kind).Overflowed?
  {
    if exists s :: s in Fields && SafeConvertAsWritten(ft, Get(info, s.key), s.kind).Overflowed? then None
    else
      WrittenRowIsCorrected(Fields, ft, info, stamp);
      Some(WrittenRow(Fields, ft, info, stamp))
  }
}
