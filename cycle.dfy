/** One fetch-and-sync cycle: collect_all_data walks the symbol mappings and
    builds the four row lists; perform_bulk_updates writes them, table after
    table, inside a single try. */
module Cycle {
  import opened PyValues
  import opened Normalizer
  import opened Store

  /** A provider ticker and the canonical symbol written to the tables. */
  datatype SymbolPair = SymbolPair(provider: string, canonical: string)

  /** INDEX_SYMBOLS */
  const IndexSymbols: seq<SymbolPair> := [SymbolPair("^JKSE", "IHSG")]

  /** STOCK_SYMBOLS as the dict literal lists it: "ASII.JK" appears twice. */
  const StockSymbolsLiteral: seq<SymbolPair> := [
    SymbolPair("ADRO.JK", "ADRO"), SymbolPair("ASII.JK", "ASII"), SymbolPair("AKRA.JK", "AKRA"),
    SymbolPair("ANTM.JK", "ANTM"), SymbolPair("ASII.JK", "ASII"), SymbolPair("BBCA.JK", "BBCA"),
    SymbolPair("BBNI.JK", "BBNI"), SymbolPair("BBRI.JK", "BBRI"), SymbolPair("BMRI.JK", "BMRI"),
    SymbolPair("ITMG.JK", "ITMG"), SymbolPair("ICBP.JK", "ICBP"), SymbolPair("INDF.JK", "INDF"),
    SymbolPair("ISAT.JK", "ISAT"), SymbolPair("KLBF.JK", "KLBF"), SymbolPair("MEDC.JK", "MEDC"),
    SymbolPair("SMGR.JK", "SMGR"), SymbolPair("PTBA.JK", "PTBA"), SymbolPair("TLKM.JK", "TLKM"),
    SymbolPair("UNTR.JK", "UNTR"), SymbolPair("UNVR.JK", "UNVR"), SymbolPair("TPIA.JK", "TPIA"),
    SymbolPair("EXCL.JK", "EXCL"), SymbolPair("GOTO.JK", "GOTO")
  ]

  /** The dict the literal at main.py:42-66 evaluates to: a repeated key keeps
      the position of its first occurrence and the value of its last. */
  function DictOf(pairs: seq<SymbolPair>): seq<SymbolPair>
    decreases |pairs|
  {
    if pairs == [] then []
    else Put(DictOf(pairs[..|pairs| - 1]), pairs[|pairs| - 1])
  }

  function Put(d: seq<SymbolPair>, p: SymbolPair): (r: seq<SymbolPair>)
    ensures (exists i :: 0 <= i < |d| && d[i].provider == p.provider) ==> |r| == |d|
    decreases |d|
  {
    if d == [] then [p]
    else if d[0].provider == p.provider then [p] + d[1..]
    else [d[0]] + Put(d[1..], p)
  }

  /** The effective STOCK_SYMBOLS: 22 pairs. */
  const StockSymbols: seq<SymbolPair> := [
    SymbolPair("ADRO.JK", "ADRO"), SymbolPair("ASII.JK", "ASII"), SymbolPair("AKRA.JK", "AKRA"),
    SymbolPair("ANTM.JK", "ANTM"), SymbolPair("BBCA.JK", "BBCA"),
    SymbolPair("BBNI.JK", "BBNI"), SymbolPair("BBRI.JK", "BBRI"), SymbolPair("BMRI.JK", "BMRI"),
    SymbolPair("ITMG.JK", "ITMG"), SymbolPair("ICBP.JK", "ICBP"), SymbolPair("INDF.JK", "INDF"),
    SymbolPair("ISAT.JK", "ISAT"), SymbolPair("KLBF.JK", "KLBF"), SymbolPair("MEDC.JK", "MEDC"),
    SymbolPair("SMGR.JK", "SMGR"), SymbolPair("PTBA.JK", "PTBA"), SymbolPair("TLKM.JK", "TLKM"),
    SymbolPair("UNTR.JK", "UNTR"), SymbolPair("UNVR.JK", "UNVR"), SymbolPair("TPIA.JK", "TPIA"),
    SymbolPair("EXCL.JK", "EXCL"), SymbolPair("GOTO.JK", "GOTO")
  ]

  /** No two pairs share a provider ticker or a canonical symbol. */
  predicate DistinctPairs(m: seq<SymbolPair>) {
    forall i, j :: 0 <= i < j < |m| ==> m[i].provider != m[j].provider && m[i].canonical != m[j].canonical
  }

  predicate DistinctProviders(m: seq<SymbolPair>) {
    forall i, j :: 0 <= i < j < |m| ==> m[i].provider != m[j].provider
  }

  lemma {:induction false} PutNew(d: seq<SymbolPair>, p: SymbolPair)
    requires forall q :: q in d ==> q.provider != p.provider
    ensures Put(d, p) == d + [p]
    decreases |d|
  {
    if d != [] {
      assert forall q :: q in d[1..] ==> q in d;
      PutNew(d[1..], p);
      assert d == [d[0]] + d[1..];
    }
  }

  lemma {:induction false} PutPresent(d: seq<SymbolPair>, p: SymbolPair)
    requires DistinctProviders(d) && p in d
    ensures Put(d, p) == d
    decreases |d|
  {
    if d[0] != p {
      var k :| 0 <= k < |d| && d[k] == p;
      assert d[1..][k - 1] == p;
      assert DistinctProviders(d[1..]) by {
        forall i, j | 0 <= i < j < |d| - 1
          ensures d[1..][i].provider != d[1..][j].provider
        {
          assert d[1..][i] == d[i + 1] && d[1..][j] == d[j + 1];
        }
      }
      PutPresent(d[1..], p);
      assert d == [d[0]] + d[1..];
    } else {
      assert d == [p] + d[1..];
    }
  }

  lemma {:induction false} DictOfDistinct(d: seq<SymbolPair>)
    requires DistinctProviders(d)
    ensures DictOf(d) == d
    decreases |d|
  {
    if d != [] {
      var init := d[..|d| - 1];
      assert DistinctProviders(init);
      DictOfDistinct(init);
      forall q | q in init
        ensures q.provider != d[|d| - 1].provider
      {
        var k :| 0 <= k < |init| && init[k] == q;
      }
      PutNew(init, d[|d| - 1]);
      assert init + [d[|d| - 1]] == d;
    }
  }

  /** A pair repeated after its first occurrence leaves the dict as if it
      had been listed once. */
  lemma {:induction false} DictOfRepeat(a: seq<SymbolPair>, x: SymbolPair, b: seq<SymbolPair>)
    requires x in a && DistinctProviders(a + b)
    ensures DictOf(a + [x] + b) == a + b
    decreases |b|
  {
    if b == [] {
      assert a + [x] + b == a + [x] && a + b == a;
      DictOfRepeatLast(a, x);
    } else {
      var init := b[..|b| - 1];
      var y := b[|b| - 1];
      assert DictOf(a + [x] + b) == Put(DictOf(a + [x] + init), y) by {
        assert (a + [x] + b)[..|a + [x] + b| - 1] == a + [x] + init;
      }
      assert a + b == (a + init) + [y];
      DistinctPrefix(a + init, y);
      DictOfRepeat(a, x, init);
      PutNew(a + init, y);
    }
  }

  lemma DictOfRepeatLast(a: seq<SymbolPair>, x: SymbolPair)
    requires x in a && DistinctProviders(a)
    ensures DictOf(a + [x]) == a
  {
    assert (a + [x])[..|a|] == a;
    DictOfDistinct(a);
    PutPresent(a, x);
  }

  lemma DistinctPrefix(d: seq<SymbolPair>, y: SymbolPair)
    requires DistinctProviders(d + [y])
    ensures DistinctProviders(d)
    ensures forall q :: q in d ==> q.provider != y.provider
  {
    assert forall i :: 0 <= i < |d| ==> (d + [y])[i] == d[i];
    forall q | q in d
      ensures q.provider != y.provider
    {
      var k :| 0 <= k < |d| && d[k] == q;
      assert (d + [y])[k] == q && (d + [y])[|d|] == y;
    }
  }

  /** The effective mappings pair each provider ticker and each canonical
      symbol with exactly one partner. */
  lemma SymbolsDistinct()
    ensures |StockSymbols| == 22 && DistinctPairs(StockSymbols) && DistinctPairs(IndexSymbols)
  {
  }

  /** The literal evaluates to the 22 pairs of StockSymbols. */
  lemma EffectiveStockSymbols()
    ensures DictOf(StockSymbolsLiteral) == StockSymbols
  {
    SymbolsDistinct();
    var a, b := StockSymbols[..4], StockSymbols[4..];
    assert |StockSymbolsLiteral| == 23;
    forall i | 0 <= i < 23
      ensures StockSymbolsLiteral[i] == (a + [StockSymbols[1]] + b)[i]
    {
    }
    assert StockSymbolsLiteral == a + [StockSymbols[1]] + b;
    assert a + b == StockSymbols;
    assert StockSymbols[1] in a;
    DictOfRepeat(a, StockSymbols[1], b);
  }

  /** What the quote provider gives for one ticker: an exception (a network
      error, an unknown ticker, ...) or the day's one-minute closes, oldest
      first, and the attribute bag `info`. */
  datatype Reply = Raised | Answered(closes: seq<PyFloat>, info: Row)

  /** The dict fetch_metadata returns. */
  datatype Metadata = Metadata(currentPrice: Option<PyFloat>, name: Value, sector: Value, previousClose: Value, info: Row)

  /** fetch_metadata, given the provider's reply: None when the provider
      raised. The price is the last one-minute close, None when there is none;
      name and sector default to "Unknown" only when their key is absent. */
  function FetchMetadata(ft: FloatText, reply: Reply): (m: Option<Metadata>)
    ensures m.None? <==> reply.Raised?
    ensures m.Some? ==>
              && (m.value.currentPrice.Some? <==> reply.closes != [])
              && (reply.closes != [] ==> m.value.currentPrice.value == reply.closes[|reply.closes| - 1])
              && ("longName" in reply.info ==> m.value.name == reply.info["longName"])
              && ("longName" !in reply.info ==> m.value.name == Str("Unknown"))
              && ("sector" in reply.info ==> m.value.sector == reply.info["sector"])
              && ("sector" !in reply.info ==> m.value.sector == Str("Unknown"))
              && OfKind(m.value.previousClose, FloatKind)
              && m.value.previousClose == SafeConvert(ft, Get(reply.info, "previousClose"), FloatKind)
              && m.value.info == reply.info
  {
    match reply
    case Raised => None
    case Answered(closes, info) =>
      Some(Metadata(
        if closes == [] then None else Some(closes[|closes| - 1]),
        GetOr(info, "longName", Str("Unknown")),
        GetOr(info, "sector", Str("Unknown")),
        SafeConvert(ft, Get(info, "previousClose"), FloatKind),
        info))
  }

  /** A symbol that fetch_metadata priced: the rows of a cycle are built from these. */
  datatype Quote = Quote(pair: SymbolPair, meta: Metadata, price: PyFloat)

  /** The quote of one pair; None when fetch_metadata raised (the error is
      reported and the symbol skipped) or found no price (skipped). */
  function QuoteOf(ft: FloatText, provider: string -> Reply, p: SymbolPair): (q: Option<Quote>)
    ensures q.Some? <==> provider(p.provider).Answered? && provider(p.provider).closes != []
    ensures q.Some? ==>
              && q.value.pair == p
              && FetchMetadata(ft, provider(p.provider)) == Some(q.value.meta)
              && q.value.meta.currentPrice == Some(q.value.price)
  {
    match FetchMetadata(ft, provider(p.provider))
    case None => None
    case Some(m) => if m.currentPrice.None? then None else Some(Quote(p, m, m.currentPrice.value))
  }

  /** The quotes of `pairs`, in the order of `pairs`, skipping the pairs that have none. */
  function Quotes(ft: FloatText, provider: string -> Reply, pairs: seq<SymbolPair>): (qs: seq<Quote>)
    ensures |qs| <= |pairs|
    ensures forall q :: q in qs ==> q.pair in pairs && QuoteOf(ft, provider, q.pair) == Some(q)
    ensures forall p :: p in pairs && QuoteOf(ft, provider, p).Some? ==> QuoteOf(ft, provider, p).value in qs
    decreases |pairs|
  {
    if pairs == [] then []
    else
      var init := pairs[..|pairs| - 1];
      assert forall p :: p in init ==> p in pairs;
      match QuoteOf(ft, provider, pairs[|pairs| - 1])
      case None => Quotes(ft, provider, init)
      case Some(q) => Quotes(ft, provider, init) + [q]
  }

  /** Quoting a concatenation quotes each part, in order. */
  lemma {:induction false} QuotesAppend(ft: FloatText, provider: string -> Reply, a: seq<SymbolPair>, b: seq<SymbolPair>)
    ensures Quotes(ft, provider, a + b) == Quotes(ft, provider, a) + Quotes(ft, provider, b)
    decreases |b|
  {
    if b != [] {
      var init := b[..|b| - 1];
      assert (a + b)[..|a + b| - 1] == a + init;
      QuotesAppend(ft, provider, a, init);
    } else {
      assert a + b == a;
    }
  }

  /** The row of the stocks table. */
  function StockRow(q: Quote): (r: Row)
    ensures r.Keys == {"symbol", "name", "sector", "current_price", "previous_close"}
    ensures r["symbol"] == Str(q.pair.canonical) && r["current_price"] == Float(q.price)
  {
    map["symbol" := Str(q.pair.canonical), "name" := q.meta.name, "sector" := q.meta.sector,
        "current_price" := Float(q.price), "previous_close" := q.meta.previousClose]
  }

  /** The row of the stock_details table: parse_stock_info of the info bag,
      stamped by the clock reading `detailStamp` gives for that symbol, plus
      the stock_symbol column. */
  function DetailRow(ft: FloatText, detailStamp: string -> string, q: Quote): (r: Row)
    ensures r.Keys == DetailColumns + {"stock_symbol"}
    ensures r["stock_symbol"] == Str(q.pair.canonical)
  {
    ParseStockInfo(ft, q.meta.info, detailStamp(q.pair.canonical))["stock_symbol" := Str(q.pair.canonical)]
  }

  /** The row of the index_prices table. */
  function IndexRow(q: Quote, stamp: string): (r: Row)
    ensures r.Keys == {"symbol", "name", "last_price", "previous_close", "updated_at"}
    ensures r["symbol"] == Str(q.pair.canonical) && r["last_price"] == Float(q.price) && r["updated_at"] == Str(stamp)
  {
    map["symbol" := Str(q.pair.canonical), "name" := q.meta.name, "last_price" := Float(q.price),
        "previous_close" := q.meta.previousClose, "updated_at" := Str(stamp)]
  }

  /** The row of the index_price_history table. */
  function HistoryRow(q: Quote, stamp: string): (r: Row)
    ensures r.Keys == {"symbol", "price", "timestamp"}
    ensures r["symbol"] == Str(q.pair.canonical) && r["price"] == Float(q.price) && r["timestamp"] == Str(stamp)
  {
    map["symbol" := Str(q.pair.canonical), "price" := Float(q.price), "timestamp" := Str(stamp)]
  }

  // The rows of a sequence of quotes, one per quote, in order.

  function StockRows(qs: seq<Quote>): seq<Row> {
    seq(|qs|, i requires 0 <= i < |qs| => StockRow(qs[i]))
  }

  function DetailRows(ft: FloatText, detailStamp: string -> string, qs: seq<Quote>): seq<Row> {
    seq(|qs|, i requires 0 <= i < |qs| => DetailRow(ft, detailStamp, qs[i]))
  }

  function IndexRows(qs: seq<Quote>, stamp: string): seq<Row> {
    seq(|qs|, i requires 0 <= i < |qs| => IndexRow(qs[i], stamp))
  }

  function HistoryRows(qs: seq<Quote>, stamp: string): seq<Row> {
    seq(|qs|, i requires 0 <= i < |qs| => HistoryRow(qs[i], stamp))
  }

  /** The four lists collect_all_data returns. */
  datatype Batch = Batch(stocks: seq<Row>, details: seq<Row>, indices: seq<Row>, history: seq<Row>)

  /** What collect_all_data gathers from `stockPairs` and `indexPairs`: a stock
      row and a detail row per priced stock, an index row and a history row per
      priced index, all index rows stamped with the one cycle reading `stamp`. */
  function CollectFrom(ft: FloatText, provider: string -> Reply, stockPairs: seq<SymbolPair>, indexPairs: seq<SymbolPair>,
                       stamp: string, detailStamp: string -> string): Batch
  {
    var sq := Quotes(ft, provider, stockPairs);
    var iq := Quotes(ft, provider, indexPairs);
    Batch(StockRows(sq), DetailRows(ft, detailStamp, sq), IndexRows(iq, stamp), HistoryRows(iq, stamp))
  }

  /** collect_all_data over the configured symbols: at most one stock row
      per configured stock, each with its own detail row, and at most one
      index row per configured index, each with its history row at the same
      price and the one cycle timestamp. */
  function Collected(ft: FloatText, provider: string -> Reply, stamp: string, detailStamp: string -> string): (b: Batch)
    ensures KeysOf(b.details, "stock_symbol") == KeysOf(b.stocks, "symbol")
    ensures KeysOf(b.history, "symbol") == KeysOf(b.indices, "symbol")
    ensures KeysOf(b.history, "price") == KeysOf(b.indices, "last_price")
    ensures forall r :: r in b.history ==> Get(r, "timestamp") == Str(stamp)
  {
    CollectAligned(ft, provider, StockSymbols, IndexSymbols, stamp, detailStamp);
    CollectFrom(ft, provider, StockSymbols, IndexSymbols, stamp, detailStamp)
  }

  /** A symbol's canonical name is among the rows' keys exactly when its
      provider ticker was priced. */
  predicate KeyedBy(rows: seq<Row>, key: string, ft: FloatText, provider: string -> Reply, pairs: seq<SymbolPair>) {
    forall p :: p in pairs ==> (Str(p.canonical) in KeysOf(rows, key) <==> QuoteOf(ft, provider, p).Some?)
  }

  /** The lists of a cycle line up: the i-th detail row is the i-th stock's,
      the i-th history row the i-th index's, and every index and history row
      carries the cycle's one timestamp. With distinct symbols, each list has
      distinct keys and holds a row for exactly the priced symbols. */
  lemma CollectAligned(ft: FloatText, provider: string -> Reply, stockPairs: seq<SymbolPair>, indexPairs: seq<SymbolPair>,
                       stamp: string, detailStamp: string -> string)
    ensures var b := CollectFrom(ft, provider, stockPairs, indexPairs, stamp, detailStamp);
            && |b.stocks| == |b.details| <= |stockPairs|
            && (forall i :: 0 <= i < |b.stocks| ==> b.details[i]["stock_symbol"] == b.stocks[i]["symbol"])
            && |b.indices| == |b.history| <= |indexPairs|
            && (forall i :: 0 <= i < |b.indices| ==>
                  b.history[i]["symbol"] == b.indices[i]["symbol"]
                  && b.history[i]["price"] == b.indices[i]["last_price"]
                  && b.indices[i]["updated_at"] == Str(stamp) && b.history[i]["timestamp"] == Str(stamp))
  {
  }

  lemma CollectKeyed(ft: FloatText, provider: string -> Reply, stockPairs: seq<SymbolPair>, indexPairs: seq<SymbolPair>,
                     stamp: string, detailStamp: string -> string)
    requires DistinctPairs(stockPairs) && DistinctPairs(indexPairs)
    ensures var b := CollectFrom(ft, provider, stockPairs, indexPairs, stamp, detailStamp);
            && DistinctKeys(b.stocks, "symbol") && DistinctKeys(b.details, "stock_symbol")
            && DistinctKeys(b.indices, "symbol")
            && KeyedBy(b.stocks, "symbol", ft, provider, stockPairs)
            && KeyedBy(b.details, "stock_symbol", ft, provider, stockPairs)
            && KeyedBy(b.indices, "symbol", ft, provider, indexPairs)
  {
    var b := CollectFrom(ft, provider, stockPairs, indexPairs, stamp, detailStamp);
    var sq := Quotes(ft, provider, stockPairs);
    var iq := Quotes(ft, provider, indexPairs);
    QuotesDistinct(ft, provider, stockPairs);
    QuotesDistinct(ft, provider, indexPairs);
    KeyedRows(b.stocks, "symbol", ft, provider, stockPairs, sq);
    KeyedRows(b.details, "stock_symbol", ft, provider, stockPairs, sq);
    KeyedRows(b.indices, "symbol", ft, provider, indexPairs, iq);
  }

  predicate DistinctSymbols(qs: seq<Quote>) {
    forall i, j :: 0 <= i < j < |qs| ==> qs[i].pair.canonical != qs[j].pair.canonical
  }

  /** Quotes of distinct pairs name distinct symbols. */
  lemma {:induction false} QuotesDistinct(ft: FloatText, provider: string -> Reply, pairs: seq<SymbolPair>)
    requires DistinctPairs(pairs)
    ensures DistinctSymbols(Quotes(ft, provider, pairs))
    decreases |pairs|
  {
    if pairs != [] {
      var init := pairs[..|pairs| - 1];
      var last := pairs[|pairs| - 1];
      assert DistinctPairs(init);
      QuotesDistinct(ft, provider, init);
      var prev := Quotes(ft, provider, init);
      forall q | q in prev
        ensures q.pair.canonical != last.canonical
      {
        var k :| 0 <= k < |init| && init[k] == q.pair;
        assert pairs[k] == q.pair;
      }
      match QuoteOf(ft, provider, last)
      case None =>
        assert Quotes(ft, provider, pairs) == prev;
      case Some(q) =>
        assert Quotes(ft, provider, pairs) == prev + [q];
        assert forall i :: 0 <= i < |prev| ==> prev[i] in prev;
    }
  }

  /** Rows keyed by the canonical symbols of the quotes of distinct pairs
      have distinct keys, and a key for exactly the priced pairs. */
  lemma KeyedRows(rows: seq<Row>, key: string, ft: FloatText, provider: string -> Reply, pairs: seq<SymbolPair>, qs: seq<Quote>)
    requires DistinctPairs(pairs) && qs == Quotes(ft, provider, pairs)
    requires DistinctSymbols(qs)
    requires |rows| == |qs| && forall i :: 0 <= i < |rows| ==> key in rows[i] && rows[i][key] == Str(qs[i].pair.canonical)
    ensures DistinctKeys(rows, key)
    ensures KeyedBy(rows, key, ft, provider, pairs)
  {
    forall p | p in pairs
      ensures Str(p.canonical) in KeysOf(rows, key) <==> QuoteOf(ft, provider, p).Some?
    {
      if Str(p.canonical) in KeysOf(rows, key) {
        var i :| 0 <= i < |rows| && KeysOf(rows, key)[i] == Str(p.canonical);
        var q := qs[i];
        assert q in qs;
        var m :| 0 <= m < |pairs| && pairs[m] == q.pair;
        var n :| 0 <= n < |pairs| && pairs[n] == p;
        assert m == n;
      }
      if QuoteOf(ft, provider, p).Some? {
        var i :| 0 <= i < |qs| && qs[i] == QuoteOf(ft, provider, p).value;
        assert KeysOf(rows, key)[i] == Str(p.canonical);
      }
    }
  }

  /** The detail rows as collect_all_data builds them: parse_stock_info runs
      after the stock row was appended, and an OverflowError escaping it is
      caught by the per-symbol handler, so that stock keeps its stock row and
      gets no detail row. */
  function DetailRowsAsWritten(ft: FloatText, detailStamp: string -> string, qs: seq<Quote>): (ds: seq<Row>)
    ensures |ds| <= |qs|
    decreases |qs|
  {
    if qs == [] then []
    else
      var q := qs[|qs| - 1];
      var init := DetailRowsAsWritten(ft, detailStamp, qs[..|qs| - 1]);
      match ParseStockInfoAsWritten(ft, q.meta.info, detailStamp(q.pair.canonical))
      case None => init
      case Some(r) => init + [r["stock_symbol" := Str(q.pair.canonical)]]
  }

  /** Every detail row as written belongs to a stock of `qs` whose parse did
      not raise. */
  lemma {:induction false} DetailRowsAsWrittenFrom(ft: FloatText, detailStamp: string -> string, qs: seq<Quote>)
    ensures forall d :: d in DetailRowsAsWritten(ft, detailStamp, qs) ==>
              "stock_symbol" in d
              && exists q :: q in qs && d["stock_symbol"] == Str(q.pair.canonical)
                             && ParseStockInfoAsWritten(ft, q.meta.info, detailStamp(q.pair.canonical)).Some?
    decreases |qs|
  {
    if qs != [] {
      var init := qs[..|qs| - 1];
      DetailRowsAsWrittenFrom(ft, detailStamp, init);
      assert forall x :: x in init ==> x in qs;
      assert qs[|qs| - 1] in qs;
    }
  }

  /** As written, a stock whose parse raises gets no detail row: no row of
      the detail list carries its symbol. */
  lemma OverflowingStockHasNoDetailRow(ft: FloatText, detailStamp: string -> string, qs: seq<Quote>, q: Quote)
    requires DistinctSymbols(qs)
    requires q in qs && ParseStockInfoAsWritten(ft, q.meta.info, detailStamp(q.pair.canonical)).None?
    ensures forall d :: d in DetailRowsAsWritten(ft, detailStamp, qs) ==>
              "stock_symbol" in d && d["stock_symbol"] != Str(q.pair.canonical)
  {
    DetailRowsAsWrittenFrom(ft, detailStamp, qs);
    forall d | d in DetailRowsAsWritten(ft, detailStamp, qs)
      ensures d["stock_symbol"] != Str(q.pair.canonical)
    {
      var q' :| q' in qs && d["stock_symbol"] == Str(q'.pair.canonical)
                && ParseStockInfoAsWritten(ft, q'.meta.info, detailStamp(q'.pair.canonical)).Some?;
      var i :| 0 <= i < |qs| && qs[i] == q;
      var j :| 0 <= j < |qs| && qs[j] == q';
      if i != j {
        assert qs[i].pair.canonical != qs[j].pair.canonical;
      }
    }
  }

  /** As written, over distinct pairs, a priced stock whose parse raises has
      a stock row but no detail row. */
  lemma CollectDropsOverflowingDetail(ft: FloatText, provider: string -> Reply, stockPairs: seq<SymbolPair>, indexPairs: seq<SymbolPair>,
                                      stamp: string, detailStamp: string -> string, p: SymbolPair)
    requires DistinctPairs(stockPairs) && p in stockPairs
    requires QuoteOf(ft, provider, p).Some?
    requires ParseStockInfoAsWritten(ft, provider(p.provider).info, detailStamp(p.canonical)).None?
    ensures var b := CollectFromAsWritten(ft, provider, stockPairs, indexPairs, stamp, detailStamp);
            && Str(p.canonical) in KeysOf(b.stocks, "symbol")
            && Str(p.canonical) !in KeysOf(b.details, "stock_symbol")
  {
    var sq := Quotes(ft, provider, stockPairs);
    var q := QuoteOf(ft, provider, p).value;
    assert q in sq;
    QuotesDistinct(ft, provider, stockPairs);
    OverflowingQuoteKeys(ft, detailStamp, sq, q);
  }

  /** The same, on the quotes: the stock rows carry the overflowing symbol
      and the detail rows as written do not. */
  lemma OverflowingQuoteKeys(ft: FloatText, detailStamp: string -> string, sq: seq<Quote>, q: Quote)
    requires DistinctSymbols(sq)
    requires q in sq && ParseStockInfoAsWritten(ft, q.meta.info, detailStamp(q.pair.canonical)).None?
    ensures Str(q.pair.canonical) in KeysOf(StockRows(sq), "symbol")
    ensures Str(q.pair.canonical) !in KeysOf(DetailRowsAsWritten(ft, detailStamp, sq), "stock_symbol")
  {
    var i :| 0 <= i < |sq| && sq[i] == q;
    assert KeysOf(StockRows(sq), "symbol")[i] == Str(q.pair.canonical);
    OverflowingStockHasNoDetailRow(ft, detailStamp, sq, q);
    KeyAbsent(DetailRowsAsWritten(ft, detailStamp, sq), "stock_symbol", Str(q.pair.canonical));
  }

  lemma KeyAbsent(rows: seq<Row>, key: string, v: Value)
    requires forall d :: d in rows ==> key in d && d[key] != v
    ensures v !in KeysOf(rows, key)
  {
    assert forall k :: 0 <= k < |rows| ==> rows[k] in rows;
  }

  /** Where no parse overflows, the rows as written are the corrected ones. */
  lemma {:induction false} DetailRowsAgreeWithoutOverflow(ft: FloatText, detailStamp: string -> string, qs: seq<Quote>)
    requires forall q :: q in qs ==> ParseStockInfoAsWritten(ft, q.meta.info, detailStamp(q.pair.canonical)).Some?
    ensures DetailRowsAsWritten(ft, detailStamp, qs) == DetailRows(ft, detailStamp, qs)
    decreases |qs|
  {
    if qs != [] {
      var n := |qs| - 1;
      var init := qs[..n];
      assert init + [qs[n]] == qs;
      assert forall x :: x in init ==> x in qs;
      assert qs[n] in qs;
      DetailRowsAgreeWithoutOverflow(ft, detailStamp, init);
      DetailRowsAsWrittenGrow(ft, detailStamp, qs);
      DetailRowsGrow(ft, detailStamp, init, qs[n]);
    }
  }

  lemma DetailRowsAsWrittenGrow(ft: FloatText, detailStamp: string -> string, qs: seq<Quote>)
    requires qs != []
    requires ParseStockInfoAsWritten(ft, qs[|qs| - 1].meta.info, detailStamp(qs[|qs| - 1].pair.canonical)).Some?
    ensures DetailRowsAsWritten(ft, detailStamp, qs)
            == DetailRowsAsWritten(ft, detailStamp, qs[..|qs| - 1]) + [DetailRow(ft, detailStamp, qs[|qs| - 1])]
  {
  }

  lemma DetailRowsGrow(ft: FloatText, detailStamp: string -> string, qs: seq<Quote>, q: Quote)
    ensures DetailRows(ft, detailStamp, qs + [q]) == DetailRows(ft, detailStamp, qs) + [DetailRow(ft, detailStamp, q)]
  {
    var all := DetailRows(ft, detailStamp, qs + [q]);
    var prev := DetailRows(ft, detailStamp, qs);
    forall i | 0 <= i < |qs|
      ensures all[i] == prev[i]
    {
      assert (qs + [q])[i] == qs[i];
    }
  }

  /** collect_all_data as written (main.py:270-334): only the detail rows
      differ from the corrected batch, and there are never more of them than
      stock rows. */
  function CollectFromAsWritten(ft: FloatText, provider: string -> Reply, stockPairs: seq<SymbolPair>, indexPairs: seq<SymbolPair>,
                                stamp: string, detailStamp: string -> string): (b: Batch)
    ensures |b.details| <= |b.stocks|
  {
    var sq := Quotes(ft, provider, stockPairs);
    var iq := Quotes(ft, provider, indexPairs);
    Batch(StockRows(sq), DetailRowsAsWritten(ft, detailStamp, sq), IndexRows(iq, stamp), HistoryRows(iq, stamp))
  }

  /** As written, the stock, index and history lists are the corrected ones. */
  lemma CollectAsWrittenSharesRows(ft: FloatText, provider: string -> Reply, stockPairs: seq<SymbolPair>, indexPairs: seq<SymbolPair>,
                                   stamp: string, detailStamp: string -> string)
    ensures var b := CollectFromAsWritten(ft, provider, stockPairs, indexPairs, stamp, detailStamp);
            var c := CollectFrom(ft, provider, stockPairs, indexPairs, stamp, detailStamp);
            b.stocks == c.stocks && b.indices == c.indices && b.history == c.history
  {
  }

  /** A provider that prices every ticker at 1.0 and reports an infinite
      marketCap for ADRO.JK and no other attribute. */
  function OverflowingAdro(t: string): Reply {
    Answered([Finite(1.0)], if t == "ADRO.JK" then map["marketCap" := Float(Infinity(false))] else map[])
  }

  /** As written, one stock whose info holds an infinite marketCap shifts the
      detail rows against the stock rows: ADRO keeps its stock row, loses its
      detail row, and the first detail row is ASII's. */
  lemma DetailsMisalignedAsWritten(ft: FloatText, stamp: string, detailStamp: string -> string)
    ensures var b := CollectFromAsWritten(ft, OverflowingAdro, StockSymbols[..2], [], stamp, detailStamp);
            && |b.stocks| == 2 && |b.details| == 1
            && b.stocks[0]["symbol"] == Str("ADRO")
            && "stock_symbol" in b.details[0] && b.details[0]["stock_symbol"] == Str("ASII")
  {
    var provider := OverflowingAdro;
    var pairs := StockSymbols[..2];
    var adro := QuoteOf(ft, provider, pairs[0]).value;
    var asii := QuoteOf(ft, provider, pairs[1]).value;
    assert pairs[..1] == [pairs[0]] && pairs[..0] == [];
    var qs := Quotes(ft, provider, pairs);
    assert qs == [adro, asii];
    assert asii.meta.info == map[];
    MarketCapOverflows(ft, adro.meta.info, detailStamp("ADRO"));
    EmptyInfoParses(ft, detailStamp("ASII"));
    DetailRowsDropOne(ft, detailStamp, qs[..1]);
    DetailRowsSkipFirst(ft, detailStamp, qs);
    var b := CollectFromAsWritten(ft, provider, pairs, [], stamp, detailStamp);
    assert b.stocks == StockRows(qs) && b.details == DetailRowsAsWritten(ft, detailStamp, qs);
  }

  lemma DetailRowsSkipFirst(ft: FloatText, detailStamp: string -> string, qs: seq<Quote>)
    requires |qs| == 2 && DetailRowsAsWritten(ft, detailStamp, qs[..1]) == []
    requires ParseStockInfoAsWritten(ft, qs[1].meta.info, detailStamp(qs[1].pair.canonical)).Some?
    ensures var ds := DetailRowsAsWritten(ft, detailStamp, qs);
            |ds| == 1 && "stock_symbol" in ds[0] && ds[0]["stock_symbol"] == Str(qs[1].pair.canonical)
  {
    DetailRowsLastParsed(ft, detailStamp, qs);
  }

  /** The last quote, when it parses, adds its tagged row at the end. */
  lemma DetailRowsLastParsed(ft: FloatText, detailStamp: string -> string, qs: seq<Quote>)
    requires qs != []
    requires ParseStockInfoAsWritten(ft, qs[|qs| - 1].meta.info, detailStamp(qs[|qs| - 1].pair.canonical)).Some?
    ensures var q := qs[|qs| - 1];
            DetailRowsAsWritten(ft, detailStamp, qs)
            == DetailRowsAsWritten(ft, detailStamp, qs[..|qs| - 1])
               + [ParseStockInfoAsWritten(ft, q.meta.info, detailStamp(q.pair.canonical)).value["stock_symbol" := Str(q.pair.canonical)]]
  {
  }

  lemma DetailRowsDropOne(ft: FloatText, detailStamp: string -> string, qs: seq<Quote>)
    requires |qs| == 1 && ParseStockInfoAsWritten(ft, qs[0].meta.info, detailStamp(qs[0].pair.canonical)).None?
    ensures DetailRowsAsWritten(ft, detailStamp, qs) == []
  {
    assert qs[..0] == [];
  }

  /** An info bag with no attribute parses without raising. */
  lemma EmptyInfoParses(ft: FloatText, stamp: string)
    ensures ParseStockInfoAsWritten(ft, map[], stamp).Some?
  {
    forall s | s in Fields
      ensures !SafeConvertAsWritten(ft, Get(map[], s.key), s.kind).Overflowed?
    {
    }
  }

  /** An infinite marketCap makes parse_stock_info raise as written. */
  lemma MarketCapOverflows(ft: FloatText, info: Row, stamp: string)
    requires "marketCap" in info && info["marketCap"] == Float(Infinity(false))
    ensures ParseStockInfoAsWritten(ft, info, stamp).None?
  {
    var marketCap := FinancialMetrics[0];
    assert marketCap == FieldSpec("market_cap", "marketCap", IntKind);
    assert marketCap in Fields;
    assert SafeConvertAsWritten(ft, Get(info, marketCap.key), marketCap.kind).Overflowed?;
  }

  /** When no stock's info makes parse_stock_info raise, collect_all_data as
      written and the corrected one build the same batch. */
  lemma CollectAgreesWithoutOverflow(ft: FloatText, provider: string -> Reply, stockPairs: seq<SymbolPair>, indexPairs: seq<SymbolPair>,
                                     stamp: string, detailStamp: string -> string)
    requires forall p :: p in stockPairs && provider(p.provider).Answered? ==>
               ParseStockInfoAsWritten(ft, provider(p.provider).info, detailStamp(p.canonical)).Some?
    ensures CollectFromAsWritten(ft, provider, stockPairs, indexPairs, stamp, detailStamp)
            == CollectFrom(ft, provider, stockPairs, indexPairs, stamp, detailStamp)
  {
    var sq := Quotes(ft, provider, stockPairs);
    forall q | q in sq
      ensures ParseStockInfoAsWritten(ft, q.meta.info, detailStamp(q.pair.canonical)).Some?
    {
      assert q.meta.info == provider(q.pair.provider).info;
    }
    DetailRowsAgreeWithoutOverflow(ft, detailStamp, sq);
  }

  /** collect_all_data: one pass over the stock symbols, then one over the
      index symbols, each fetching the symbol's metadata and appending its
      rows when it has a price. */
  method CollectAllData(provider: string -> Reply, ft: FloatText, stamp: string, detailStamp: string -> string) returns (b: Batch)
    ensures b == Collected(ft, provider, stamp, detailStamp)
  {
    var stocks, details := CollectStocks(provider, ft, detailStamp, StockSymbols);
    var indices, history := CollectIndices(provider, ft, stamp, IndexSymbols);
    b := Batch(stocks, details, indices, history);
  }

  /** The stock loop of collect_all_data. */
  method CollectStocks(provider: string -> Reply, ft: FloatText, detailStamp: string -> string, pairs: seq<SymbolPair>)
    returns (stocks: seq<Row>, details: seq<Row>)
    ensures stocks == StockRows(Quotes(ft, provider, pairs))
    ensures details == DetailRows(ft, detailStamp, Quotes(ft, provider, pairs))
  {
    stocks, details := [], [];
    ghost var sq: seq<Quote> := [];
    for i := 0 to |pairs|
      invariant sq == Quotes(ft, provider, pairs[..i])
      invariant stocks == StockRows(sq) && details == DetailRows(ft, detailStamp, sq)
    {
      var p := pairs[i];
      QuotesStep(ft, provider, pairs, i);
      var metadata := FetchMetadata(ft, provider(p.provider));
      if metadata.Some? && metadata.value.currentPrice.Some? {
        var q := Quote(p, metadata.value, metadata.value.currentPrice.value);
        StockRowsGrow(sq, q);
        DetailRowsGrow(ft, detailStamp, sq, q);
        stocks := stocks + [StockRow(q)];
        details := details + [DetailRow(ft, detailStamp, q)];
        sq := sq + [q];
      }
    }
    assert pairs[..|pairs|] == pairs;
  }

  /** The index loop of collect_all_data. */
  method CollectIndices(provider: string -> Reply, ft: FloatText, stamp: string, pairs: seq<SymbolPair>)
    returns (indices: seq<Row>, history: seq<Row>)
    ensures indices == IndexRows(Quotes(ft, provider, pairs), stamp)
    ensures history == HistoryRows(Quotes(ft, provider, pairs), stamp)
  {
    indices, history := [], [];
    ghost var iq: seq<Quote> := [];
    for i := 0 to |pairs|
      invariant iq == Quotes(ft, provider, pairs[..i])
      invariant indices == IndexRows(iq, stamp) && history == HistoryRows(iq, stamp)
    {
      var p := pairs[i];
      QuotesStep(ft, provider, pairs, i);
      var metadata := FetchMetadata(ft, provider(p.provider));
      if metadata.Some? && metadata.value.currentPrice.Some? {
        var q := Quote(p, metadata.value, metadata.value.currentPrice.value);
        IndexRowsGrow(iq, q, stamp);
        indices := indices + [IndexRow(q, stamp)];
        history := history + [HistoryRow(q, stamp)];
        iq := iq + [q];
      }
    }
    assert pairs[..|pairs|] == pairs;
  }

  /** One more pair quotes one more symbol when it is priced. */
  lemma QuotesStep(ft: FloatText, provider: string -> Reply, pairs: seq<SymbolPair>, i: nat)
    requires i < |pairs|
    ensures Quotes(ft, provider, pairs[..i + 1]) ==
              match QuoteOf(ft, provider, pairs[i])
              case None => Quotes(ft, provider, pairs[..i])
              case Some(q) => Quotes(ft, provider, pairs[..i]) + [q]
  {
    assert pairs[..i + 1][..i] == pairs[..i];
  }

  lemma StockRowsGrow(qs: seq<Quote>, q: Quote)
    ensures StockRows(qs + [q]) == StockRows(qs) + [StockRow(q)]
  {
    var all, prev := StockRows(qs + [q]), StockRows(qs);
    forall i | 0 <= i < |qs|
      ensures all[i] == prev[i]
    {
      assert (qs + [q])[i] == qs[i];
    }
  }

  lemma IndexRowsGrow(qs: seq<Quote>, q: Quote, stamp: string)
    ensures IndexRows(qs + [q], stamp) == IndexRows(qs, stamp) + [IndexRow(q, stamp)]
    ensures HistoryRows(qs + [q], stamp) == HistoryRows(qs, stamp) + [HistoryRow(q, stamp)]
  {
    forall i | 0 <= i < |qs|
      ensures IndexRows(qs + [q], stamp)[i] == IndexRows(qs, stamp)[i]
      ensures HistoryRows(qs + [q], stamp)[i] == HistoryRows(qs, stamp)[i]
    {
      assert (qs + [q])[i] == qs[i];
    }
  }

  /** Every row carries the key its table is upserted by. */
  lemma RowsKeyed(ft: FloatText, detailStamp: string -> string, stamp: string, qs: seq<Quote>)
    ensures forall r :: r in StockRows(qs) ==> "symbol" in r
    ensures forall r :: r in DetailRows(ft, detailStamp, qs) ==> "stock_symbol" in r
    ensures forall r :: r in IndexRows(qs, stamp) ==> "symbol" in r
  {
    forall r | r in StockRows(qs)
      ensures "symbol" in r
    {
      var i :| 0 <= i < |qs| && StockRows(qs)[i] == r;
    }
    forall r | r in DetailRows(ft, detailStamp, qs)
      ensures "stock_symbol" in r
    {
      var i :| 0 <= i < |qs| && DetailRows(ft, detailStamp, qs)[i] == r;
    }
    forall r | r in IndexRows(qs, stamp)
      ensures "symbol" in r
    {
      var i :| 0 <= i < |qs| && IndexRows(qs, stamp)[i] == r;
    }
  }

  /** No quote at all when no ticker of `pairs` is priced. */
  lemma {:induction false} NoQuotes(ft: FloatText, provider: string -> Reply, pairs: seq<SymbolPair>)
    requires forall p :: p in pairs ==> provider(p.provider).Raised? || provider(p.provider).closes == []
    ensures Quotes(ft, provider, pairs) == []
    decreases |pairs|
  {
    if pairs != [] {
      var init := pairs[..|pairs| - 1];
      assert forall p :: p in init ==> p in pairs;
      assert pairs[|pairs| - 1] in pairs;
      NoQuotes(ft, provider, init);
    }
  }
}
