/** The persistent store and bulk_upsert, the reconciliation of a batch of rows
    against a table: one query for the keys that already exist, one update per
    existing row, one batched insert for the rest.

    The store is an in-memory stand-in for the hosted database client: a map
    from table name to its rows, the log of every call issued to it, and the set
    of call positions at which it raises. */
module Store {
  import opened PyValues

  /** One call to the store client. */
  datatype Op =
    | Select(table: string, key: string, values: seq<Value>)   // select(key).in_(key, values)
    | Update(table: string, key: string, value: Value, patch: Row)  // update(patch).eq(key, value)
    | Insert(table: string, rows: seq<Row>)                    // insert(rows)

  type Tables = map<string, seq<Row>>

  /** The rows of table `name`, oldest first. */
  function Rows(t: Tables, name: string): seq<Row> {
    if name in t then t[name] else []
  }

  /** `key = value` in a filter: a None never matches. */
  predicate Matches(r: Row, key: string, value: Value) {
    value != Null && key in r && r[key] == value
  }

  /** The effect of one successful call. An update sets the columns of `patch`
      on every matching row and keeps its other columns. */
  function ApplyOp(t: Tables, op: Op): (t': Tables)
    ensures forall name :: name != op.table ==> Rows(t', name) == Rows(t, name)
  {
    match op
    case Select(_, _, _) => t
    case Update(table, key, value, patch) =>
      var rows := Rows(t, table);
      t[table := seq(|rows|, i requires 0 <= i < |rows| =>
                       if Matches(rows[i], key, value) then rows[i] + patch else rows[i])]
    case Insert(table, rows) => t[table := Rows(t, table) + rows]
  }

  /** The effect of a sequence of successful calls, in order. */
  function ApplyOps(t: Tables, ops: seq<Op>): Tables
    decreases |ops|
  {
    if ops == [] then t else ApplyOp(ApplyOps(t, ops[..|ops| - 1]), ops[|ops| - 1])
  }

  lemma {:induction false} ApplyOpsAppend(t: Tables, a: seq<Op>, b: seq<Op>)
    ensures ApplyOps(t, a + b) == ApplyOps(ApplyOps(t, a), b)
    decreases |b|
  {
    if b == [] {
      assert a + b == a;
    } else {
      assert (a + b)[..|a + b| - 1] == a + b[..|b| - 1];
      ApplyOpsAppend(t, a, b[..|b| - 1]);
    }
  }

  /** Calls none of which addresses table `other` leave it as it was. */
  lemma {:induction false} ApplyOpsElsewhere(t: Tables, ops: seq<Op>, other: string)
    requires forall op :: op in ops ==> op.table != other
    ensures Rows(ApplyOps(t, ops), other) == Rows(t, other)
    decreases |ops|
  {
    if ops != [] {
      assert forall op :: op in ops[..|ops| - 1] ==> op in ops;
      ApplyOpsElsewhere(t, ops[..|ops| - 1], other);
    }
  }

  /** What running the calls of `plan` from store state (t0, l0) did when it
      ended in state (t1, l1) with outcome `ok`: the calls were issued in plan
      order; the first call that raised was the last one issued and had no
      effect; `ok` exactly when the whole plan went through. */
  ghost predicate Ran(faults: set<nat>, t0: Tables, l0: seq<Op>, plan: seq<Op>, ok: bool, t1: Tables, l1: seq<Op>)
  {
    var issued := |l1| - |l0|;
    var done := if ok then issued else issued - 1;
    && 0 <= done <= issued <= |plan|
    && l1 == l0 + plan[..issued]
    && (ok ==> issued == |plan|)
    && (!ok ==> |l1| - 1 in faults)
    && (forall p :: |l0| <= p < |l0| + done ==> p !in faults)
    && t1 == ApplyOps(t0, plan[..done])
  }

  lemma RanNothing(faults: set<nat>, t: Tables, l: seq<Op>)
    ensures Ran(faults, t, l, [], true, t, l)
  {
    assert l + [] == l;
  }

  /** Running one plan and then another is running their concatenation. */
  lemma RanThen(faults: set<nat>, t0: Tables, l0: seq<Op>, p: seq<Op>, t1: Tables, l1: seq<Op>,
                q: seq<Op>, ok: bool, t2: Tables, l2: seq<Op>)
    requires Ran(faults, t0, l0, p, true, t1, l1)
    requires Ran(faults, t1, l1, q, ok, t2, l2)
    ensures Ran(faults, t0, l0, p + q, ok, t2, l2)
  {
    var i1 := |l1| - |l0|;
    var i2 := |l2| - |l1|;
    var d2 := if ok then i2 else i2 - 1;
    assert i1 == |p| && p[..i1] == p;
    assert l2 == l0 + (p + q)[..i1 + i2] by {
      assert (p + q)[..i1 + i2] == p + q[..i2];
    }
    assert t2 == ApplyOps(t0, (p + q)[..i1 + d2]) by {
      assert (p + q)[..i1 + d2] == p + q[..d2];
      ApplyOpsAppend(t0, p, q[..d2]);
    }
  }

  /** A plan cut short by a raising call is cut short whatever follows it. */
  lemma RanStops(faults: set<nat>, t0: Tables, l0: seq<Op>, p: seq<Op>, q: seq<Op>, t1: Tables, l1: seq<Op>)
    requires Ran(faults, t0, l0, p, false, t1, l1)
    ensures Ran(faults, t0, l0, p + q, false, t1, l1)
  {
    var issued := |l1| - |l0|;
    assert (p + q)[..issued] == p[..issued];
    assert (p + q)[..issued - 1] == p[..issued - 1];
  }

  /** A fault-free run of calls none of which addresses `other` leaves it as it was. */
  lemma RanElsewhere(faults: set<nat>, t0: Tables, l0: seq<Op>, plan: seq<Op>, t1: Tables, l1: seq<Op>, other: string)
    requires Ran(faults, t0, l0, plan, true, t1, l1)
    requires forall op :: op in plan ==> op.table != other
    ensures Rows(t1, other) == Rows(t0, other)
  {
    assert plan[..|plan|] == plan;
    ApplyOpsElsewhere(t0, plan, other);
  }

  /** When a run of `p + q` fails at a call not addressing `table`, and every
      call of `p` addresses `table`, the failure came after `p` went through. */
  lemma RanPastFirst(faults: set<nat>, t0: Tables, l0: seq<Op>, p: seq<Op>, q: seq<Op>, t1: Tables, l1: seq<Op>, table: string)
    requires Ran(faults, t0, l0, p + q, false, t1, l1)
    requires forall op :: op in p ==> op.table == table
    requires l1[|l1| - 1].table != table
    ensures |p| <= |l1| - |l0| - 1
    ensures t1 == ApplyOps(t0, p + q[..|l1| - |l0| - 1 - |p|])
  {
    var done := |l1| - |l0| - 1;
    assert l1[|l1| - 1] == (p + q)[done];
    if done < |p| {
      assert false;
    }
    assert (p + q)[..done] == p + q[..done - |p|];
  }

  lemma PrefixGrows<T>(s: seq<T>, n: nat)
    requires n < |s|
    ensures s[..n] + [s[n]] == s[..n + 1]
  {
  }

  /** `row[key]` of each row: the keys bulk_upsert asks about. */
  function KeysOf(data: seq<Row>, key: string): seq<Value> {
    seq(|data|, i requires 0 <= i < |data| => Get(data[i], key))
  }

  /** The key values present among `rows` that are listed in `values`: what
      the select at main.py:254-255 returns, as a set. */
  function Existing(rows: seq<Row>, key: string, values: seq<Value>): set<Value> {
    set r | r in rows && Matches(r, key, Get(r, key)) && Get(r, key) in values :: Get(r, key)
  }

  /** The rows of `data`, in order, whose key is (`present`) or is not
      (`!present`) among `existing`: the update and insert lists. */
  function Partition(data: seq<Row>, key: string, existing: set<Value>, present: bool): (part: seq<Row>)
    ensures forall r :: r in part ==> r in data && (Get(r, key) in existing) == present
    ensures forall r :: r in data && (Get(r, key) in existing) == present ==> r in part
    ensures |part| <= |data|
  {
    if data == [] then []
    else
      (if (Get(data[0], key) in existing) == present then [data[0]] else [])
      + Partition(data[1..], key, existing, present)
  }

  /** Every row lands in exactly one of the two lists: together they are
      `data` rearranged. */
  lemma {:induction false} PartitionSplits(data: seq<Row>, key: string, existing: set<Value>)
    ensures multiset(Partition(data, key, existing, true)) + multiset(Partition(data, key, existing, false))
            == multiset(data)
    decreases |data|
  {
    if data != [] {
      PartitionSplits(data[1..], key, existing);
      assert data == [data[0]] + data[1..];
    }
  }

  /** Each list keeps the order the rows had in `data`: partitioning a
      concatenation partitions each part in place. */
  lemma {:induction false} PartitionKeepsOrder(a: seq<Row>, b: seq<Row>, key: string, existing: set<Value>, present: bool)
    ensures Partition(a + b, key, existing, present) == Partition(a, key, existing, present) + Partition(b, key, existing, present)
    decreases |a|
  {
    if a == [] {
      assert a + b == b;
    } else {
      assert (a + b)[1..] == a[1..] + b;
      PartitionKeepsOrder(a[1..], b, key, existing, present);
    }
  }

  /** One update call per row of `updates`, in order. */
  function UpdateOps(table: string, key: string, updates: seq<Row>): (ops: seq<Op>)
    ensures |ops| == |updates|
  {
    seq(|updates|, i requires 0 <= i < |updates| => Update(table, key, Get(updates[i], key), updates[i]))
  }

  /** The calls of a non-empty bulk_upsert once its select has split the batch
      into `updates` and `inserts`. */
  function UpsertCalls(table: string, key: string, keys: seq<Value>, updates: seq<Row>, inserts: seq<Row>): seq<Op> {
    [Select(table, key, keys)]
    + UpdateOps(table, key, updates)
    + (if inserts == [] then [] else [Insert(table, inserts)])
  }

  /** The calls bulk_upsert issues for `data` against a table holding `rows`:
      nothing for an empty batch; otherwise the select, an update per row whose
      key exists (in batch order), then one insert when any row is new. */
  function UpsertPlan(table: string, key: string, data: seq<Row>, rows: seq<Row>): (plan: seq<Op>)
    ensures plan == [] <==> data == []
    ensures plan != [] ==> plan[0] == Select(table, key, KeysOf(data, key))
  {
    if data == [] then []
    else
      var existing := Existing(rows, key, KeysOf(data, key));
      UpsertCalls(table, key, KeysOf(data, key), Partition(data, key, existing, true), Partition(data, key, existing, false))
  }

  /** The calls' shape: a single select first, the updates in batch order,
      and at most one insert, last, present exactly when some row is new. */
  lemma UpsertCallsShape(table: string, key: string, keys: seq<Value>, updates: seq<Row>, inserts: seq<Row>)
    ensures var calls := UpsertCalls(table, key, keys, updates, inserts);
            && calls[0] == Select(table, key, keys)
            && |calls| == 1 + |updates| + (if inserts == [] then 0 else 1)
            && (forall i :: 0 <= i < |updates| ==> calls[1 + i] == Update(table, key, Get(updates[i], key), updates[i]))
            && (forall i :: 0 <= i < |calls| && calls[i].Insert? ==> i == |calls| - 1 && calls[i] == Insert(table, inserts))
            && (inserts != [] <==> calls[|calls| - 1].Insert?)
  {
    var calls := UpsertCalls(table, key, keys, updates, inserts);
    var ups := UpdateOps(table, key, updates);
    forall i | 1 <= i <= |updates|
      ensures calls[i] == ups[i - 1] && !calls[i].Insert?
    {
    }
  }

  lemma UpsertPlanAddresses(table: string, key: string, data: seq<Row>, rows: seq<Row>)
    ensures forall op :: op in UpsertPlan(table, key, data, rows) ==> op.table == table
  {
  }

  /** `r` after the updates in `updates` were applied to it one by one. */
  function PatchRow(r: Row, key: string, updates: seq<Row>): Row
    decreases |updates|
  {
    if updates == [] then r
    else
      var before := PatchRow(r, key, updates[..|updates| - 1]);
      var u := updates[|updates| - 1];
      if Matches(before, key, Get(u, key)) then before + u else before
  }

  function PatchAll(rows: seq<Row>, key: string, updates: seq<Row>): (patched: seq<Row>)
    ensures |patched| == |rows|
  {
    seq(|rows|, i requires 0 <= i < |rows| => PatchRow(rows[i], key, updates))
  }

  /** The per-row update calls, run in order, patch every row by every update
      whose key it has. */
  lemma {:induction false} ApplyUpdateOps(t: Tables, table: string, key: string, updates: seq<Row>)
    ensures Rows(ApplyOps(t, UpdateOps(table, key, updates)), table) == PatchAll(Rows(t, table), key, updates)
    decreases |updates|
  {
    var n := |updates|;
    if n == 0 {
      assert PatchAll(Rows(t, table), key, updates) == Rows(t, table);
    } else {
      var ops := UpdateOps(table, key, updates);
      assert ops[..n - 1] == UpdateOps(table, key, updates[..n - 1]);
      ApplyUpdateOps(t, table, key, updates[..n - 1]);
    }
  }

  /** The rows of the table after a fault-free bulk_upsert of `data` on `rows`:
      the existing rows, in place, followed by at most one new row per batch
      row, each taken from the batch. */
  function Upserted(rows: seq<Row>, key: string, data: seq<Row>): (r: seq<Row>)
    ensures |rows| <= |r| <= |rows| + |data|
    ensures forall x :: x in r[|rows|..] ==> x in data
  {
    if data == [] then rows
    else
      var existing := Existing(rows, key, KeysOf(data, key));
      PatchAll(rows, key, Partition(data, key, existing, true)) + Partition(data, key, existing, false)
  }

  /** A fault-free bulk_upsert leaves the table holding Upserted(...), and
      every other table as it was. */
  lemma UpsertEffect(t: Tables, table: string, key: string, data: seq<Row>, other: string)
    requires other != table
    ensures var after := ApplyOps(t, UpsertPlan(table, key, data, Rows(t, table)));
            && Rows(after, table) == Upserted(Rows(t, table), key, data)
            && Rows(after, other) == Rows(t, other)
  {
    var plan := UpsertPlan(table, key, data, Rows(t, table));
    UpsertPlanAddresses(table, key, data, Rows(t, table));
    ApplyOpsElsewhere(t, plan, other);
    if data != [] {
      var existing := Existing(Rows(t, table), key, KeysOf(data, key));
      var updates := Partition(data, key, existing, true);
      var inserts := Partition(data, key, existing, false);
      var sel := [Select(table, key, KeysOf(data, key))];
      var ups := UpdateOps(table, key, updates);
      var ins := if inserts == [] then [] else [Insert(table, inserts)];
      assert plan == sel + ups + ins;
      ApplyOpsAppend(t, sel + ups, ins);
      ApplyOpsAppend(t, sel, ups);
      assert ApplyOps(t, sel) == t by {
        assert sel[..0] == [];
      }
      ApplyUpdateOps(t, table, key, updates);
      if inserts != [] {
        assert ins[..0] == [];
      }
    }
  }

  /** With distinct batch keys, an existing row whose key a batch row has
      keeps its place and becomes the row merged with that batch row. */
  lemma UpsertUpdatesInPlace(rows: seq<Row>, key: string, data: seq<Row>, i: nat, u: Row)
    requires DistinctKeys(data, key)
    requires i < |rows| && u in data && Matches(rows[i], key, u[key])
    ensures Upserted(rows, key, data)[i] == rows[i] + u
  {
    var existing := Existing(rows, key, KeysOf(data, key));
    var j :| 0 <= j < |data| && data[j] == u;
    assert KeysOf(data, key)[j] == u[key];
    assert rows[i] in rows && Get(rows[i], key) == u[key];
    assert Get(u, key) in existing;
    PartitionKeepsDistinct(data, key, existing, true);
    PatchRowByUnique(rows[i], key, Partition(data, key, existing, true), u);
  }

  /** A row that no update matches is left as it was. */
  lemma {:induction false} PatchRowUntouched(r: Row, key: string, updates: seq<Row>)
    requires forall u :: u in updates ==> !Matches(r, key, Get(u, key))
    ensures PatchRow(r, key, updates) == r
    decreases |updates|
  {
    if updates != [] {
      assert forall u :: u in updates[..|updates| - 1] ==> u in updates;
      PatchRowUntouched(r, key, updates[..|updates| - 1]);
    }
  }

  /** Updates whose rows carry `key` never change a row's key value. */
  lemma {:induction false} PatchRowKeepsKey(r: Row, key: string, updates: seq<Row>)
    requires forall u :: u in updates ==> key in u
    ensures key in PatchRow(r, key, updates) <==> key in r
    ensures key in r ==> PatchRow(r, key, updates)[key] == r[key]
    decreases |updates|
  {
    if updates != [] {
      assert forall u :: u in updates[..|updates| - 1] ==> u in updates;
      PatchRowKeepsKey(r, key, updates[..|updates| - 1]);
    }
  }

  /** Rows whose key is not in the batch are unchanged, the batch's new rows
      are appended in order, and nothing is removed. */
  lemma UpsertKeepsOtherRows(rows: seq<Row>, key: string, data: seq<Row>, i: nat)
    requires i < |rows|
    requires Get(rows[i], key) !in KeysOf(data, key)
    ensures |Upserted(rows, key, data)| >= |rows|
    ensures Upserted(rows, key, data)[i] == rows[i]
  {
    if data != [] {
      var existing := Existing(rows, key, KeysOf(data, key));
      var updates := Partition(data, key, existing, true);
      forall u | u in updates
        ensures !Matches(rows[i], key, Get(u, key))
      {
        var j :| 0 <= j < |data| && data[j] == u;
        assert KeysOf(data, key)[j] == Get(u, key);
      }
      PatchRowUntouched(rows[i], key, updates);
    }
  }

  /** After a bulk_upsert every key of the batch is in the table. */
  lemma UpsertCoversBatch(rows: seq<Row>, key: string, data: seq<Row>, d: Row)
    requires forall r :: r in data ==> key in r
    requires d in data && d[key] != Null
    ensures exists r :: r in Upserted(rows, key, data) && Matches(r, key, d[key])
  {
    var existing := Existing(rows, key, KeysOf(data, key));
    var updates := Partition(data, key, existing, true);
    var inserts := Partition(data, key, existing, false);
    var after := Upserted(rows, key, data);
    if d[key] in existing {
      var r :| r in rows && Matches(r, key, Get(r, key)) && Get(r, key) in KeysOf(data, key) && Get(r, key) == d[key];
      var i :| 0 <= i < |rows| && rows[i] == r;
      PatchRowKeepsKey(r, key, updates);
      assert after[i] == PatchRow(r, key, updates);
      assert Matches(after[i], key, d[key]);
    } else {
      assert Get(d, key) == d[key];
      assert d in inserts;
      var j :| 0 <= j < |inserts| && inserts[j] == d;
      assert after[|rows| + j] == d;
      assert after[|rows| + j] in after;
    }
  }

  /** Every row of the batch has a non-None key and no two rows share one. */
  predicate DistinctKeys(data: seq<Row>, key: string) {
    && (forall r :: r in data ==> key in r && r[key] != Null)
    && (forall i, j :: 0 <= i < j < |data| ==> Get(data[i], key) != Get(data[j], key))
  }

  /** With distinct keys, updates patch a row by the one update that has its
      key, if any. */
  lemma {:induction false} PatchRowByUnique(r: Row, key: string, updates: seq<Row>, u: Row)
    requires DistinctKeys(updates, key)
    requires u in updates && Matches(r, key, u[key])
    ensures PatchRow(r, key, updates) == r + u
    decreases |updates|
  {
    var n := |updates|;
    var last := updates[n - 1];
    var init := updates[..n - 1];
    assert DistinctKeys(init, key) by {
      assert forall x :: x in init ==> x in updates;
    }
    if last == u {
      forall w | w in init
        ensures !Matches(r, key, Get(w, key))
      {
        var j :| 0 <= j < n - 1 && init[j] == w;
        assert updates[j] == w;
      }
      PatchRowUntouched(r, key, init);
    } else {
      var k :| 0 <= k < n && updates[k] == u;
      assert k < n - 1;
      assert init[k] == u;
      PatchRowByUnique(r, key, init, u);
      assert Get(last, key) != Get(u, key);
    }
  }

  /** Idempotence: re-running a bulk_upsert with the same batch of distinct
      keys finds every key present, so it issues only updates, and it leaves
      the table content as the first run left it. */
  lemma UpsertIdempotent(rows: seq<Row>, key: string, data: seq<Row>)
    requires DistinctKeys(data, key)
    ensures var once := Upserted(rows, key, data);
            && Partition(data, key, Existing(once, key, KeysOf(data, key)), false) == []
            && Upserted(once, key, data) == once
  {
    if data != [] {
      var once := Upserted(rows, key, data);
      var existing := Existing(rows, key, KeysOf(data, key));
      var updates := Partition(data, key, existing, true);
      var inserts := Partition(data, key, existing, false);
      var again := Existing(once, key, KeysOf(data, key));
      forall d | d in data
        ensures Get(d, key) in again
      {
        UpsertCoversBatch(rows, key, data, d);
        var r :| r in once && Matches(r, key, d[key]);
        var j :| 0 <= j < |data| && data[j] == d;
        assert KeysOf(data, key)[j] == d[key];
      }
      PartitionAllPresent(data, key, again);
      assert Upserted(once, key, data) == PatchAll(once, key, data);
      forall i | 0 <= i < |once|
        ensures PatchRow(once[i], key, data) == once[i]
      {
        PatchTwiceIsOnce(rows, key, data, i);
      }
    }
  }

  lemma {:induction false} PartitionAllPresent(data: seq<Row>, key: string, existing: set<Value>)
    requires forall d :: d in data ==> Get(d, key) in existing
    ensures Partition(data, key, existing, true) == data
    ensures Partition(data, key, existing, false) == []
    decreases |data|
  {
    if data != [] {
      assert forall d :: d in data[1..] ==> d in data;
      PartitionAllPresent(data[1..], key, existing);
      assert data == [data[0]] + data[1..];
    }
  }

  /** Setting the same columns twice is setting them once. */
  lemma MergeTwice(r: Row, patch: Row)
    ensures (r + patch) + patch == r + patch
  {
  }

  /** Each row of a first run's result is a fixed point of the batch's updates. */
  lemma PatchTwiceIsOnce(rows: seq<Row>, key: string, data: seq<Row>, i: nat)
    requires DistinctKeys(data, key) && data != []
    requires i < |Upserted(rows, key, data)|
    ensures var once := Upserted(rows, key, data);
            PatchRow(once[i], key, data) == once[i]
  {
    var once := Upserted(rows, key, data);
    var existing := Existing(rows, key, KeysOf(data, key));
    var updates := Partition(data, key, existing, true);
    var inserts := Partition(data, key, existing, false);
    var patched := PatchAll(rows, key, updates);
    assert once == patched + inserts;
    if i < |rows| {
      assert once[i] == patched[i] == PatchRow(rows[i], key, updates);
      PatchExistingRowTwice(rows, key, data, i);
    } else {
      var d := inserts[i - |rows|];
      assert once[i] == d;
      assert d in data;
      PatchInsertedRowTwice(d, key, data);
    }
  }

  lemma PatchInsertedRowTwice(d: Row, key: string, data: seq<Row>)
    requires DistinctKeys(data, key) && d in data
    ensures PatchRow(d, key, data) == d
  {
    PatchRowByUnique(d, key, data, d);
    MergeTwice(map[], d);
    assert map[] + d == d;
  }

  lemma PatchExistingRowTwice(rows: seq<Row>, key: string, data: seq<Row>, i: nat)
    requires DistinctKeys(data, key) && i < |rows|
    ensures var updates := Partition(data, key, Existing(rows, key, KeysOf(data, key)), true);
            PatchRow(PatchRow(rows[i], key, updates), key, data) == PatchRow(rows[i], key, updates)
  {
    var r := rows[i];
    var existing := Existing(rows, key, KeysOf(data, key));
    var updates := Partition(data, key, existing, true);
    if u :| u in data && Matches(r, key, u[key]) {
      var j :| 0 <= j < |data| && data[j] == u;
      assert KeysOf(data, key)[j] == u[key];
      assert Get(r, key) == u[key] && r in rows;
      assert Get(u, key) in existing;
      assert u in updates;
      PartitionKeepsDistinct(data, key, existing, true);
      PatchMatchedRowTwice(r, key, updates, data, u);
    } else {
      forall w | w in data
        ensures !Matches(r, key, Get(w, key))
      {
      }
      PatchRowUntouched(r, key, data);
      forall w | w in updates
        ensures !Matches(r, key, Get(w, key))
      {
      }
      PatchRowUntouched(r, key, updates);
    }
  }

  lemma PatchMatchedRowTwice(r: Row, key: string, updates: seq<Row>, data: seq<Row>, u: Row)
    requires DistinctKeys(data, key) && DistinctKeys(updates, key)
    requires u in updates && u in data
    requires Matches(r, key, u[key])
    ensures PatchRow(PatchRow(r, key, updates), key, data) == PatchRow(r, key, updates)
  {
    PatchRowByUnique(r, key, updates, u);
    assert Matches(r + u, key, u[key]);
    PatchRowByUnique(r + u, key, data, u);
    MergeTwice(r, u);
  }


  lemma {:induction false} PartitionKeepsDistinct(data: seq<Row>, key: string, existing: set<Value>, present: bool)
    requires DistinctKeys(data, key)
    ensures DistinctKeys(Partition(data, key, existing, present), key)
    decreases |data|
  {
    if data != [] {
      var tail := data[1..];
      assert DistinctKeys(tail, key) by {
        assert forall x :: x in tail ==> x in data;
        forall i, j | 0 <= i < j < |tail|
          ensures Get(tail[i], key) != Get(tail[j], key)
        {
          assert tail[i] == data[i + 1] && tail[j] == data[j + 1];
        }
      }
      PartitionKeepsDistinct(tail, key, existing, present);
      var rest := Partition(tail, key, existing, present);
      forall x | x in rest
        ensures Get(x, key) != Get(data[0], key)
      {
        var j :| 0 <= j < |tail| && tail[j] == x;
        assert data[j + 1] == x;
      }
    }
  }

  /** A row the upsert inserts has a key no existing row has: the select found
      none. */
  lemma InsertedKeyIsNew(rows: seq<Row>, key: string, data: seq<Row>, d: Row, i: nat)
    requires DistinctKeys(rows, key)
    requires d in Partition(data, key, Existing(rows, key, KeysOf(data, key)), false)
    requires i < |rows|
    ensures Get(rows[i], key) != Get(d, key)
  {
    var j :| 0 <= j < |data| && data[j] == d;
    assert KeysOf(data, key)[j] == Get(d, key);
    if Get(rows[i], key) == Get(d, key) {
      assert rows[i] in rows && Matches(rows[i], key, Get(rows[i], key));
      assert false;
    }
  }

  /** Updates whose rows carry `key` keep the keys of every row, so they keep
      the keys distinct. */
  lemma PatchAllKeepsKeysDistinct(rows: seq<Row>, key: string, updates: seq<Row>)
    requires DistinctKeys(rows, key)
    requires forall u :: u in updates ==> key in u
    ensures DistinctKeys(PatchAll(rows, key, updates), key)
  {
    var patched := PatchAll(rows, key, updates);
    forall i | 0 <= i < |rows|
      ensures key in patched[i] && patched[i][key] == rows[i][key]
    {
      PatchRowKeepsKey(rows[i], key, updates);
    }
  }

  /** Two runs of rows with distinct keys, no key in both, concatenate to one. */
  lemma AppendKeepsKeysDistinct(a: seq<Row>, b: seq<Row>, key: string)
    requires DistinctKeys(a, key) && DistinctKeys(b, key)
    requires forall i, j :: 0 <= i < |a| && 0 <= j < |b| ==> Get(a[i], key) != Get(b[j], key)
    ensures DistinctKeys(a + b, key)
  {
    forall i, j | 0 <= i < j < |a + b|
      ensures Get((a + b)[i], key) != Get((a + b)[j], key)
    {
      if j < |a| {
      } else if i < |a| {
        assert (a + b)[j] == b[j - |a|];
      } else {
        assert (a + b)[i] == b[i - |a|] && (a + b)[j] == b[j - |a|];
      }
    }
  }

  /** The snapshot tables' invariant: when the table holds at most one row per
      key and the batch repeats no key, the upsert leaves at most one row per key. */
  lemma UpsertKeepsKeysDistinct(rows: seq<Row>, key: string, data: seq<Row>)
    requires DistinctKeys(rows, key) && DistinctKeys(data, key)
    ensures DistinctKeys(Upserted(rows, key, data), key)
  {
    if data != [] {
      var existing := Existing(rows, key, KeysOf(data, key));
      var updates := Partition(data, key, existing, true);
      var inserts := Partition(data, key, existing, false);
      var patched := PatchAll(rows, key, updates);
      PatchAllKeepsKeysDistinct(rows, key, updates);
      PartitionKeepsDistinct(data, key, existing, false);
      forall i, j | 0 <= i < |patched| && 0 <= j < |inserts|
        ensures Get(patched[i], key) != Get(inserts[j], key)
      {
        PatchRowKeepsKey(rows[i], key, updates);
        InsertedKeyIsNew(rows, key, data, inserts[j], i);
      }
      AppendKeepsKeysDistinct(patched, inserts, key);
    }
  }

  /** The store. `tables` is its content, `log` every call issued to it so far
      (a call that raised included), and a call raises when its position in
      `log` is in `faults`. */
  class Database {
    var tables: Tables
    var log: seq<Op>
    const faults: set<nat>

    constructor (initial: Tables, failing: set<nat>)
      ensures tables == initial && log == [] && faults == failing
    {
      tables := initial;
      log := [];
      faults := failing;
    }

    /** Issues one call: it raises, without effect, when its position is a
        fault, and takes effect otherwise. */
    method Execute(op: Op) returns (ok: bool)
      modifies this
      ensures Ran(faults, old(tables), old(log), [op], ok, tables, log)
      ensures ok == (|old(log)| !in faults)
    {
      ok := |log| !in faults;
      if ok {
        tables := ApplyOp(tables, op);
        assert [op][..1] == [op] && [op][..0] == [];
      } else {
        assert [op][..0] == [];
      }
      log := log + [op];
    }

    /** `select(key).in_(key, values)`, reduced to the set of keys returned. */
    method SelectExisting(table: string, key: string, values: seq<Value>) returns (ok: bool, existing: set<Value>)
      modifies this
      ensures Ran(faults, old(tables), old(log), [Select(table, key, values)], ok, tables, log)
      ensures ok ==> existing == Existing(Rows(old(tables), table), key, values)
    {
      existing := Existing(Rows(tables, table), key, values);
      ok := Execute(Select(table, key, values));
    }

    /** The loop of per-row updates: one `update(row).eq(key, row[key])` per
        row, in order, until one raises. */
    method UpdateEach(table: string, key: string, updates: seq<Row>) returns (ok: bool)
      requires forall r :: r in updates ==> key in r
      modifies this
      ensures Ran(faults, old(tables), old(log), UpdateOps(table, key, updates), ok, tables, log)
    {
      ghost var t0, l0 := tables, log;
      ghost var ups := UpdateOps(table, key, updates);
      RanNothing(faults, tables, log);
      assert ups[..0] == [];
      ok := true;
      for i := 0 to |updates|
        invariant ok
        invariant Ran(faults, t0, l0, ups[..i], true, tables, log)
      {
        ghost var t1, l1 := tables, log;
        var u := updates[i];
        ok := Execute(Update(table, key, u[key], u));
        RanThen(faults, t0, l0, ups[..i], t1, l1, [ups[i]], ok, tables, log);
        PrefixGrows(ups, i);
        if !ok {
          RanStops(faults, t0, l0, ups[..i + 1], ups[i + 1..], tables, log);
          assert ups[..i + 1] + ups[i + 1..] == ups;
          return;
        }
      }
      assert ups[..|updates|] == ups;
    }

    /** bulk_upsert: `ok` is false when a store call raised; the exception
        ends the upsert at that call. */
    method BulkUpsert(table: string, data: seq<Row>, key: string) returns (ok: bool)
      requires forall r :: r in data ==> key in r
      modifies this
      ensures Ran(faults, old(tables), old(log), UpsertPlan(table, key, data, Rows(old(tables), table)), ok, tables, log)
    {
      ghost var t0, l0 := tables, log;
      ghost var plan := UpsertPlan(table, key, data, Rows(tables, table));
      if data == [] {
        RanNothing(faults, tables, log);
        return true;
      }
      var keys := KeysOf(data, key);
      var existing;
      ok, existing := SelectExisting(table, key, keys);
      ghost var sel := [Select(table, key, keys)];
      if !ok {
        RanStops(faults, t0, l0, sel, plan[1..], tables, log);
        assert sel + plan[1..] == plan;
        return;
      }
      var updates := Partition(data, key, existing, true);
      var inserts := Partition(data, key, existing, false);
      ghost var ups := UpdateOps(table, key, updates);
      ghost var ins := if inserts == [] then [] else [Insert(table, inserts)];
      assert plan == sel + ups + ins;
      ghost var t1, l1 := tables, log;
      ok := UpdateEach(table, key, updates);
      if !ok {
        RanThen(faults, t0, l0, sel, t1, l1, ups, false, tables, log);
        RanStops(faults, t0, l0, sel + ups, ins, tables, log);
        return;
      }
      RanThen(faults, t0, l0, sel, t1, l1, ups, true, tables, log);
      ghost var t2, l2 := tables, log;
      if inserts != [] {
        ok := Execute(Insert(table, inserts));
      } else {
        RanNothing(faults, tables, log);
      }
      RanThen(faults, t0, l0, sel + ups, t2, l2, ins, ok, tables, log);
    }
  }
}
