/** perform_bulk_updates: one cycle's writes to the store, table after table,
    all inside one exception handler. */
module Sync {
  import opened PyValues
  import opened Normalizer
  import opened Store
  import opened Cycle

  const StocksTable: string := "stocks"
  const DetailsTable: string := "stock_details"
  const IndexTable: string := "index_prices"
  const HistoryTable: string := "index_price_history"

  /** The history rows are always inserted, in one call, when there are any
      (main.py:355-357). */
  function HistoryPlan(history: seq<Row>): seq<Op> {
    if history == [] then [] else [Insert(HistoryTable, history)]
  }

  /** The calls a cycle issues for batch `b` against the store content `t`:
      the stocks upsert, the stock_details upsert, the index_prices upsert, then
      the history insert; an empty list issues nothing for its table. Each
      upsert is planned against the content it finds, which the earlier writes
      (to other tables) leave as `t` has it. */
  function CyclePlan(t: Tables, b: Batch): (plan: seq<Op>)
    ensures plan == [] <==> b.stocks == [] && b.details == [] && b.indices == [] && b.history == []
    ensures b.history != [] ==> plan[|plan| - 1] == Insert(HistoryTable, b.history)
  {
    UpsertPlan(StocksTable, "symbol", b.stocks, Rows(t, StocksTable)) + DetailsOnward(t, b)
  }

  /** The calls from the stock_details upsert on. */
  function DetailsOnward(t: Tables, b: Batch): seq<Op> {
    UpsertPlan(DetailsTable, "stock_symbol", b.details, Rows(t, DetailsTable)) + IndexOnward(t, b)
  }

  /** The calls from the index_prices upsert on. */
  function IndexOnward(t: Tables, b: Batch): seq<Op> {
    UpsertPlan(IndexTable, "symbol", b.indices, Rows(t, IndexTable)) + HistoryPlan(b.history)
  }

  /** The position of a cycle table in the write order. */
  function Rank(table: string): nat {
    if table == StocksTable then 0
    else if table == DetailsTable then 1
    else if table == IndexTable then 2
    else 3
  }

  /** Every row of a batch carries the key its table is upserted by. */
  predicate Keyed(b: Batch) {
    && (forall r :: r in b.stocks ==> "symbol" in r)
    && (forall r :: r in b.details ==> "stock_symbol" in r)
    && (forall r :: r in b.indices ==> "symbol" in r)
  }

  lemma CollectedKeyed(ft: FloatText, provider: string -> Reply, stamp: string, detailStamp: string -> string)
    ensures Keyed(Collected(ft, provider, stamp, detailStamp))
  {
    var sq := Quotes(ft, provider, StockSymbols);
    var iq := Quotes(ft, provider, IndexSymbols);
    RowsKeyed(ft, detailStamp, stamp, sq);
    RowsKeyed(ft, detailStamp, stamp, iq);
  }

  /** perform_bulk_updates: `ok` is false when a store call raised; the one
      handler around all four writes ends the cycle at that call, and the
      writes already made stay. */
  method PerformBulkUpdates(db: Database, provider: string -> Reply, ft: FloatText, stamp: string, detailStamp: string -> string)
    returns (ok: bool)
    modifies db
    ensures Ran(db.faults, old(db.tables), old(db.log), CyclePlan(old(db.tables), Collected(ft, provider, stamp, detailStamp)),
                ok, db.tables, db.log)
  {
    var b := CollectAllData(provider, ft, stamp, detailStamp);
    CollectedKeyed(ft, provider, stamp, detailStamp);
    ok := WriteBatch(db, b);
  }

  /** The writes of perform_bulk_updates for a collected batch. */
  method WriteBatch(db: Database, b: Batch) returns (ok: bool)
    requires Keyed(b)
    modifies db
    ensures Ran(db.faults, old(db.tables), old(db.log), CyclePlan(old(db.tables), b), ok, db.tables, db.log)
  {
    ghost var t0, l0 := db.tables, db.log;
    ghost var first := UpsertPlan(StocksTable, "symbol", b.stocks, Rows(t0, StocksTable));
    ghost var rest := DetailsOnward(t0, b);
    ok := true;
    if b.stocks != [] {
      ok := db.BulkUpsert(StocksTable, b.stocks, "symbol");
    } else {
      RanNothing(db.faults, db.tables, db.log);
    }
    if !ok {
      RanStops(db.faults, t0, l0, first, rest, db.tables, db.log);
      return;
    }
    ghost var t1, l1 := db.tables, db.log;
    UpsertPlanAddresses(StocksTable, "symbol", b.stocks, Rows(t0, StocksTable));
    RanElsewhere(db.faults, t0, l0, first, t1, l1, DetailsTable);
    RanElsewhere(db.faults, t0, l0, first, t1, l1, IndexTable);
    assert DetailsOnward(t1, b) == rest;
    ok := WriteDetailsOnward(db, b);
    RanThen(db.faults, t0, l0, first, t1, l1, rest, ok, db.tables, db.log);
  }

  method WriteDetailsOnward(db: Database, b: Batch) returns (ok: bool)
    requires Keyed(b)
    modifies db
    ensures Ran(db.faults, old(db.tables), old(db.log), DetailsOnward(old(db.tables), b), ok, db.tables, db.log)
  {
    ghost var t0, l0 := db.tables, db.log;
    ghost var first := UpsertPlan(DetailsTable, "stock_symbol", b.details, Rows(t0, DetailsTable));
    ghost var rest := IndexOnward(t0, b);
    ok := true;
    if b.details != [] {
      ok := db.BulkUpsert(DetailsTable, b.details, "stock_symbol");
    } else {
      RanNothing(db.faults, db.tables, db.log);
    }
    if !ok {
      RanStops(db.faults, t0, l0, first, rest, db.tables, db.log);
      return;
    }
    ghost var t1, l1 := db.tables, db.log;
    UpsertPlanAddresses(DetailsTable, "stock_symbol", b.details, Rows(t0, DetailsTable));
    RanElsewhere(db.faults, t0, l0, first, t1, l1, IndexTable);
    assert IndexOnward(t1, b) == rest;
    ok := WriteIndexOnward(db, b);
    RanThen(db.faults, t0, l0, first, t1, l1, rest, ok, db.tables, db.log);
  }

  method WriteIndexOnward(db: Database, b: Batch) returns (ok: bool)
    requires Keyed(b)
    modifies db
    ensures Ran(db.faults, old(db.tables), old(db.log), IndexOnward(old(db.tables), b), ok, db.tables, db.log)
  {
    ghost var t0, l0 := db.tables, db.log;
    ghost var first := UpsertPlan(IndexTable, "symbol", b.indices, Rows(t0, IndexTable));
    ghost var rest := HistoryPlan(b.history);
    ok := true;
    if b.indices != [] {
      ok := db.BulkUpsert(IndexTable, b.indices, "symbol");
    } else {
      RanNothing(db.faults, db.tables, db.log);
    }
    if !ok {
      RanStops(db.faults, t0, l0, first, rest, db.tables, db.log);
      return;
    }
    ghost var t1, l1 := db.tables, db.log;
    if b.history != [] {
      ok := db.Execute(Insert(HistoryTable, b.history));
    } else {
      RanNothing(db.faults, db.tables, db.log);
    }
    RanThen(db.faults, t0, l0, first, t1, l1, rest, ok, db.tables, db.log);
  }

  /** The calls visit the tables in write order. */
  predicate InOrder(plan: seq<Op>) {
    forall i, j :: 0 <= i < j < |plan| ==> Rank(plan[i].table) <= Rank(plan[j].table)
  }

  lemma {:induction false} OrderedAppend(p: seq<Op>, q: seq<Op>)
    requires InOrder(p) && InOrder(q)
    requires forall x, y :: x in p && y in q ==> Rank(x.table) <= Rank(y.table)
    ensures InOrder(p + q)
  {
    forall i, j | 0 <= i < j < |p + q|
      ensures Rank((p + q)[i].table) <= Rank((p + q)[j].table)
    {
      if i < |p| && j >= |p| {
        assert (p + q)[i] == p[i] && (p + q)[j] == q[j - |p|];
        assert p[i] in p && q[j - |p|] in q;
      } else if i < |p| {
        assert (p + q)[i] == p[i] && (p + q)[j] == p[j];
      } else {
        assert (p + q)[i] == q[i - |p|] && (p + q)[j] == q[j - |p|];
      }
    }
  }

  /** The cycle writes the tables in a fixed order: stocks, stock_details,
      index_prices, index_price_history. */
  lemma CycleWriteOrder(t: Tables, b: Batch)
    ensures InOrder(CyclePlan(t, b))
  {
    var p1 := UpsertPlan(StocksTable, "symbol", b.stocks, Rows(t, StocksTable));
    UpsertPlanAddresses(StocksTable, "symbol", b.stocks, Rows(t, StocksTable));
    DetailsOnwardInOrder(t, b);
    OrderedAppend(p1, DetailsOnward(t, b));
  }

  lemma DetailsOnwardInOrder(t: Tables, b: Batch)
    ensures InOrder(DetailsOnward(t, b))
    ensures forall op :: op in DetailsOnward(t, b) ==> Rank(op.table) >= 1
  {
    var p2 := UpsertPlan(DetailsTable, "stock_symbol", b.details, Rows(t, DetailsTable));
    UpsertPlanAddresses(DetailsTable, "stock_symbol", b.details, Rows(t, DetailsTable));
    IndexOnwardInOrder(t, b);
    OrderedAppend(p2, IndexOnward(t, b));
  }

  lemma IndexOnwardInOrder(t: Tables, b: Batch)
    ensures InOrder(IndexOnward(t, b))
    ensures forall op :: op in IndexOnward(t, b) ==> Rank(op.table) >= 2
  {
    var p3 := UpsertPlan(IndexTable, "symbol", b.indices, Rows(t, IndexTable));
    UpsertPlanAddresses(IndexTable, "symbol", b.indices, Rows(t, IndexTable));
    OrderedAppend(p3, HistoryPlan(b.history));
  }

  /** The cycle touches no table but its four, only ever inserts into the
      history table, all its rows in one call, and issues no call for a table
      whose list is empty. */
  lemma CycleTables(t: Tables, b: Batch)
    ensures forall op :: op in CyclePlan(t, b) ==> op.table in {StocksTable, DetailsTable, IndexTable, HistoryTable}
    ensures forall op :: op in CyclePlan(t, b) && op.table == HistoryTable ==> op == Insert(HistoryTable, b.history)
    ensures b.stocks == [] ==> forall op :: op in CyclePlan(t, b) ==> op.table != StocksTable
    ensures b.details == [] ==> forall op :: op in CyclePlan(t, b) ==> op.table != DetailsTable
    ensures b.indices == [] ==> forall op :: op in CyclePlan(t, b) ==> op.table != IndexTable
    ensures b.history == [] ==> forall op :: op in CyclePlan(t, b) ==> op.table != HistoryTable
  {
    UpsertPlanAddresses(StocksTable, "symbol", b.stocks, Rows(t, StocksTable));
    UpsertPlanAddresses(DetailsTable, "stock_symbol", b.details, Rows(t, DetailsTable));
    UpsertPlanAddresses(IndexTable, "symbol", b.indices, Rows(t, IndexTable));
  }

  /** A cycle that went through leaves each upserted table as bulk_upsert
      promises, the history table extended by the history rows, and every
      other table as it was. */
  lemma CycleEffect(t: Tables, b: Batch, other: string)
    requires other !in {StocksTable, DetailsTable, IndexTable, HistoryTable}
    ensures var after := ApplyOps(t, CyclePlan(t, b));
            && Rows(after, StocksTable) == Upserted(Rows(t, StocksTable), "symbol", b.stocks)
            && Rows(after, DetailsTable) == Upserted(Rows(t, DetailsTable), "stock_symbol", b.details)
            && Rows(after, IndexTable) == Upserted(Rows(t, IndexTable), "symbol", b.indices)
            && Rows(after, HistoryTable) == Rows(t, HistoryTable) + b.history
            && Rows(after, other) == Rows(t, other)
  {
    var p1 := UpsertPlan(StocksTable, "symbol", b.stocks, Rows(t, StocksTable));
    var t1 := ApplyOps(t, p1);
    UpsertEffect(t, StocksTable, "symbol", b.stocks, DetailsTable);
    UpsertEffect(t, StocksTable, "symbol", b.stocks, IndexTable);
    UpsertEffect(t, StocksTable, "symbol", b.stocks, HistoryTable);
    UpsertEffect(t, StocksTable, "symbol", b.stocks, other);
    ApplyOpsAppend(t, p1, DetailsOnward(t, b));
    assert DetailsOnward(t, b) == DetailsOnward(t1, b);
    DetailsOnwardEffect(t1, b, other);
  }

  lemma DetailsOnwardEffect(t: Tables, b: Batch, other: string)
    requires other !in {StocksTable, DetailsTable, IndexTable, HistoryTable}
    ensures var after := ApplyOps(t, DetailsOnward(t, b));
            && Rows(after, StocksTable) == Rows(t, StocksTable)
            && Rows(after, DetailsTable) == Upserted(Rows(t, DetailsTable), "stock_symbol", b.details)
            && Rows(after, IndexTable) == Upserted(Rows(t, IndexTable), "symbol", b.indices)
            && Rows(after, HistoryTable) == Rows(t, HistoryTable) + b.history
            && Rows(after, other) == Rows(t, other)
  {
    var p2 := UpsertPlan(DetailsTable, "stock_symbol", b.details, Rows(t, DetailsTable));
    var t2 := ApplyOps(t, p2);
    UpsertEffect(t, DetailsTable, "stock_symbol", b.details, StocksTable);
    UpsertEffect(t, DetailsTable, "stock_symbol", b.details, IndexTable);
    UpsertEffect(t, DetailsTable, "stock_symbol", b.details, HistoryTable);
    UpsertEffect(t, DetailsTable, "stock_symbol", b.details, other);
    ApplyOpsAppend(t, p2, IndexOnward(t, b));
    assert IndexOnward(t, b) == IndexOnward(t2, b);
    IndexOnwardEffect(t2, b, other);
  }

  lemma IndexOnwardEffect(t: Tables, b: Batch, other: string)
    requires other !in {StocksTable, DetailsTable, IndexTable, HistoryTable}
    ensures var after := ApplyOps(t, IndexOnward(t, b));
            && Rows(after, StocksTable) == Rows(t, StocksTable)
            && Rows(after, DetailsTable) == Rows(t, DetailsTable)
            && Rows(after, IndexTable) == Upserted(Rows(t, IndexTable), "symbol", b.indices)
            && Rows(after, HistoryTable) == Rows(t, HistoryTable) + b.history
            && Rows(after, other) == Rows(t, other)
  {
    var p3 := UpsertPlan(IndexTable, "symbol", b.indices, Rows(t, IndexTable));
    var t3 := ApplyOps(t, p3);
    UpsertEffect(t, IndexTable, "symbol", b.indices, StocksTable);
    UpsertEffect(t, IndexTable, "symbol", b.indices, DetailsTable);
    UpsertEffect(t, IndexTable, "symbol", b.indices, HistoryTable);
    UpsertEffect(t, IndexTable, "symbol", b.indices, other);
    ApplyOpsAppend(t, p3, HistoryPlan(b.history));
    if b.history != [] {
      assert HistoryPlan(b.history)[..0] == [];
    }
  }

  /** No rollback: when a call after the stocks upsert raises, the stocks
      table keeps that upsert's writes. */
  lemma FailureKeepsStocksWrites(faults: set<nat>, t0: Tables, l0: seq<Op>, b: Batch, t1: Tables, l1: seq<Op>)
    requires Ran(faults, t0, l0, CyclePlan(t0, b), false, t1, l1)
    requires l1[|l1| - 1].table != StocksTable
    ensures Rows(t1, StocksTable) == Upserted(Rows(t0, StocksTable), "symbol", b.stocks)
  {
    var p1 := UpsertPlan(StocksTable, "symbol", b.stocks, Rows(t0, StocksTable));
    var rest := DetailsOnward(t0, b);
    var done := |l1| - |l0| - 1;
    FailurePastStocks(faults, t0, l0, b, t1, l1);
    var tail := rest[..done - |p1|];
    var mid := ApplyOps(t0, p1);
    ApplyOpsAppend(t0, p1, tail);
    UpsertEffect(t0, StocksTable, "symbol", b.stocks, DetailsTable);
    DetailsOnwardInOrder(t0, b);
    assert forall op :: op in tail ==> op in rest;
    ApplyOpsElsewhere(mid, tail, StocksTable);
  }

  lemma FailurePastStocks(faults: set<nat>, t0: Tables, l0: seq<Op>, b: Batch, t1: Tables, l1: seq<Op>)
    requires Ran(faults, t0, l0, CyclePlan(t0, b), false, t1, l1)
    requires l1[|l1| - 1].table != StocksTable
    ensures var p1 := UpsertPlan(StocksTable, "symbol", b.stocks, Rows(t0, StocksTable));
            var done := |l1| - |l0| - 1;
            |p1| <= done && t1 == ApplyOps(t0, p1 + DetailsOnward(t0, b)[..done - |p1|])
  {
    UpsertPlanAddresses(StocksTable, "symbol", b.stocks, Rows(t0, StocksTable));
    RanPastFirst(faults, t0, l0, UpsertPlan(StocksTable, "symbol", b.stocks, Rows(t0, StocksTable)), DetailsOnward(t0, b),
                 t1, l1, StocksTable);
  }

  /** Running the same batch again after a cycle that went through changes
      none of the upserted tables (every key now exists, so only updates are
      issued, and they rewrite the same values); the history table alone
      grows again. */
  lemma RepeatedCycleOnlyGrowsHistory(t: Tables, b: Batch)
    requires DistinctKeys(b.stocks, "symbol") && DistinctKeys(b.details, "stock_symbol") && DistinctKeys(b.indices, "symbol")
    ensures var once := ApplyOps(t, CyclePlan(t, b));
            var twice := ApplyOps(once, CyclePlan(once, b));
            && Rows(twice, StocksTable) == Rows(once, StocksTable)
            && Rows(twice, DetailsTable) == Rows(once, DetailsTable)
            && Rows(twice, IndexTable) == Rows(once, IndexTable)
            && Rows(twice, HistoryTable) == Rows(once, HistoryTable) + b.history
  {
    var once := ApplyOps(t, CyclePlan(t, b));
    CycleEffect(t, b, "");
    CycleEffect(once, b, "");
    UpsertIdempotent(Rows(t, StocksTable), "symbol", b.stocks);
    UpsertIdempotent(Rows(t, DetailsTable), "stock_symbol", b.details);
    UpsertIdempotent(Rows(t, IndexTable), "symbol", b.indices);
  }

  /** With the configured symbols, the stock, detail and index lists of a
      cycle have distinct keys: the premise under which a repeated cycle
      changes none of the upserted tables. */
  lemma CollectedKeysDistinct(ft: FloatText, provider: string -> Reply, stamp: string, detailStamp: string -> string)
    ensures var b := Collected(ft, provider, stamp, detailStamp);
            DistinctKeys(b.stocks, "symbol") && DistinctKeys(b.details, "stock_symbol") && DistinctKeys(b.indices, "symbol")
  {
    SymbolsDistinct();
    CollectKeyed(ft, provider, StockSymbols, IndexSymbols, stamp, detailStamp);
  }

  /** The snapshot tables keep at most one row per key: a cycle that went
      through, starting from tables with distinct keys, leaves them distinct. */
  lemma CycleKeepsOneRowPerKey(t: Tables, ft: FloatText, provider: string -> Reply, stamp: string, detailStamp: string -> string)
    requires DistinctKeys(Rows(t, StocksTable), "symbol")
    requires DistinctKeys(Rows(t, DetailsTable), "stock_symbol")
    requires DistinctKeys(Rows(t, IndexTable), "symbol")
    ensures var after := ApplyOps(t, CyclePlan(t, Collected(ft, provider, stamp, detailStamp)));
            && DistinctKeys(Rows(after, StocksTable), "symbol")
            && DistinctKeys(Rows(after, DetailsTable), "stock_symbol")
            && DistinctKeys(Rows(after, IndexTable), "symbol")
  {
    var b := Collected(ft, provider, stamp, detailStamp);
    CollectedKeysDistinct(ft, provider, stamp, detailStamp);
    CycleEffect(t, b, "");
    UpsertKeepsKeysDistinct(Rows(t, StocksTable), "symbol", b.stocks);
    UpsertKeepsKeysDistinct(Rows(t, DetailsTable), "stock_symbol", b.details);
    UpsertKeepsKeysDistinct(Rows(t, IndexTable), "symbol", b.indices);
  }

  /** When the provider prices no ticker, the cycle issues no store call. */
  lemma SilentProviderWritesNothing(t: Tables, ft: FloatText, provider: string -> Reply, stamp: string, detailStamp: string -> string)
    requires forall s :: provider(s).Raised? || provider(s).closes == []
    ensures CyclePlan(t, Collected(ft, provider, stamp, detailStamp)) == []
  {
    NoQuotes(ft, provider, StockSymbols);
    NoQuotes(ft, provider, IndexSymbols);
  }
}
