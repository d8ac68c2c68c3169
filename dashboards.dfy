/**
 * The dashboards page: the KPI totals over the filtered records, the sales
 * per creator, and the manager rating ordered by sales.
 */
module Dashboards {
  import opened Wrappers
  import opened Records
  import opened Sorting

  /** The KPI cards. `count` is the number of records with a margin. */
  datatype Kpis = Kpis(
    totalSales: real,
    totalExpenses: real,
    netProfit: real,
    avgMarginPct: real,
    totalVat: real,
    totalCit: real,
    count: nat
  )

  /** The mean of the present margins, or 0 when no record has one. */
  function AverageMargin(records: seq<StoredRecord>): real {
    if MarginCount(records) > 0 then Sum(records, Margin) / (MarginCount(records) as real) else 0.0
  }

  /**
   * The `kpis` reducer: one pass over the records adding each amount (a
   * missing one as 0), the taxes per unit (a zero quantity as one unit, a
   * missing or zero tax as nothing), and the present margins with their count.
   */
  method ComputeKpis(records: seq<StoredRecord>) returns (k: Kpis)
    ensures k.totalSales == Sum(records, SellingVat)
    ensures k.totalExpenses == Sum(records, Expenses)
    ensures k.netProfit == Sum(records, NetIncome)
    ensures k.totalVat == Sum(records, VatCharged)
    ensures k.totalCit == Sum(records, CitCharged)
    ensures k.count == MarginCount(records)
    ensures k.avgMarginPct == AverageMargin(records)
  {
    var totalSales, totalExpenses, netProfit, marginSum, totalVat, totalCit := 0.0, 0.0, 0.0, 0.0, 0.0, 0.0;
    var count := 0;
    var i := 0;
    while i < |records|
      invariant 0 <= i <= |records|
      invariant totalSales == Sum(records[..i], SellingVat)
      invariant totalExpenses == Sum(records[..i], Expenses)
      invariant netProfit == Sum(records[..i], NetIncome)
      invariant totalVat == Sum(records[..i], VatCharged)
      invariant totalCit == Sum(records[..i], CitCharged)
      invariant marginSum == Sum(records[..i], Margin)
      invariant count == MarginCount(records[..i])
    {
      var r := records[i];
      SumStep(records, i, SellingVat);
      SumStep(records, i, Expenses);
      SumStep(records, i, NetIncome);
      SumStep(records, i, VatCharged);
      SumStep(records, i, CitCharged);
      SumStep(records, i, Margin);
      MarginCountStep(records, i);
      totalSales := totalSales + OrZero(r.totalSellingVat);
      totalExpenses := totalExpenses + OrZero(r.totalExpenses);
      netProfit := netProfit + OrZero(r.totalNetIncome);
      totalVat := totalVat + Charged(r.ndsTax, r);
      totalCit := totalCit + Charged(r.kpnTax, r);
      if r.marginPercent.Some? {
        marginSum := marginSum + r.marginPercent.value;
        count := count + 1;
      }
      i := i + 1;
    }
    assert records[..|records|] == records;
    var avg := if count > 0 then marginSum / (count as real) else 0.0;
    k := Kpis(totalSales, totalExpenses, netProfit, avg, totalVat, totalCit, count);
  }

  /** Extending the prefix by one record adds that record's amount to a running total. */
  lemma SumStep(records: seq<StoredRecord>, i: nat, m: Measure)
    requires i < |records|
    ensures Sum(records[..i + 1], m) == Sum(records[..i], m) + Value(m, records[i])
  {
    assert records[..i + 1][..i] == records[..i];
  }

  /** Extending the prefix by one record counts its margin when present. */
  lemma MarginCountStep(records: seq<StoredRecord>, i: nat)
    requires i < |records|
    ensures MarginCount(records[..i + 1]) == MarginCount(records[..i]) + (if records[i].marginPercent.Some? then 1 else 0)
  {
    assert records[..i + 1][..i] == records[..i];
  }

  /**
   * The average margin is a mean: when every present margin lies in [lo, hi]
   * and at least one is present, so does the average; with none it is 0.
   */
  lemma AverageMarginWithin(records: seq<StoredRecord>, lo: real, hi: real)
    requires forall i :: 0 <= i < |records| && records[i].marginPercent.Some? ==> lo <= records[i].marginPercent.value <= hi
    ensures MarginCount(records) == 0 ==> AverageMargin(records) == 0.0
    ensures MarginCount(records) > 0 ==> lo <= AverageMargin(records) <= hi
  {
    MarginSumBounds(records, lo, hi);
    if MarginCount(records) > 0 {
      MeanWithin(lo, hi, MarginCount(records), Sum(records, Margin));
    }
  }

  // ---------------------------------------------------------------- per creator

  /** One row of the creator table. */
  datatype UserSales = UserSales(userId: string, sales: real, count: nat)

  /** The running total the grouping loop keeps per key. */
  datatype Tally = Tally(sales: real, count: nat)

  /** The rows for a list of keys: each key's sales and record count. */
  function RowsFor(keys: seq<string>, records: seq<StoredRecord>): seq<UserSales> {
    seq(|keys|, i requires 0 <= i < |keys| =>
      UserSales(keys[i], GroupSum(records, ByCreator, keys[i], SellingVat), GroupCount(records, ByCreator, keys[i])))
  }

  /** One row per creator key, in order of first appearance. */
  function PerformanceRows(records: seq<StoredRecord>): seq<UserSales> {
    RowsFor(Keys(records, ByCreator), records)
  }

  /**
   * `performanceByUser`: a Map from creator key (missing or empty creator as
   * "unknown") to its running sales and count, read out in insertion order.
   */
  method PerformanceByUser(records: seq<StoredRecord>) returns (rows: seq<UserSales>)
    ensures rows == PerformanceRows(records)
  {
    var keys: seq<string> := [];
    var tallies: map<string, Tally> := map[];
    var i := 0;
    while i < |records|
      invariant 0 <= i <= |records|
      invariant Tallied(records[..i], keys, tallies)
    {
      var r := records[i];
      var key := CreatorKey(r);
      var prev := if key in tallies then tallies[key] else Tally(0.0, 0);
      var salesTotal := OrZero(r.totalSellingVat);
      TallyStep(records[..i], r, keys, tallies);
      if key !in tallies {
        keys := keys + [key];
      }
      tallies := tallies[key := Tally(prev.sales + salesTotal, prev.count + 1)];
      assert records[..i + 1] == records[..i] + [r];
      i := i + 1;
    }
    assert records[..|records|] == records;
    rows := seq(|keys|, j requires 0 <= j < |keys| => UserSales(keys[j], tallies[keys[j]].sales, tallies[keys[j]].count));
    TalliesReadOut(records, keys, tallies, rows);
  }

  /** Reading the tallies out in key order gives the creator rows. */
  lemma TalliesReadOut(records: seq<StoredRecord>, keys: seq<string>, tallies: map<string, Tally>, rows: seq<UserSales>)
    requires Tallied(records, keys, tallies)
    requires |rows| == |keys|
    requires forall j :: 0 <= j < |keys| ==> rows[j] == UserSales(keys[j], tallies[keys[j]].sales, tallies[keys[j]].count)
    ensures rows == PerformanceRows(records)
  {
  }

  /**
   * The grouping loop's invariant: the keys seen so far in first-appearance
   * order, and each key's running tally equal to its group's sales and size.
   */
  ghost predicate Tallied(records: seq<StoredRecord>, keys: seq<string>, tallies: map<string, Tally>) {
    && keys == Keys(records, ByCreator)
    && (forall k :: k in tallies <==> k in keys)
    && (forall k :: k in tallies ==> tallies[k] == Tally(GroupSum(records, ByCreator, k, SellingVat), GroupCount(records, ByCreator, k)))
  }

  /** One step of the grouping loop keeps its invariant. */
  lemma TallyStep(records: seq<StoredRecord>, r: StoredRecord, keys: seq<string>, tallies: map<string, Tally>)
    requires Tallied(records, keys, tallies)
    ensures var key := CreatorKey(r);
      var prev := if key in tallies then tallies[key] else Tally(0.0, 0);
      Tallied(records + [r], if key in tallies then keys else keys + [key],
              tallies[key := Tally(prev.sales + OrZero(r.totalSellingVat), prev.count + 1)])
  {
    var key := CreatorKey(r);
    var all := records + [r];
    assert all[..|all| - 1] == records;
    KeysAreGroups(records, ByCreator);
    if key !in tallies {
      assert GroupCount(records, ByCreator, key) == 0;
      EmptyGroupSum(records, key);
    }
  }

  /** An empty group sums to 0. */
  lemma {:induction false} EmptyGroupSum(records: seq<StoredRecord>, k: string)
    requires GroupCount(records, ByCreator, k) == 0
    ensures GroupSum(records, ByCreator, k, SellingVat) == 0.0
  {
    if |records| > 0 {
      EmptyGroupSum(records[..|records| - 1], k);
    }
  }

  /** The sum of the row counts. */
  function TotalCount(rows: seq<UserSales>): nat {
    if |rows| == 0 then 0 else TotalCount(rows[..|rows| - 1]) + rows[|rows| - 1].count
  }

  lemma {:induction false} TotalCountOfRows(keys: seq<string>, records: seq<StoredRecord>)
    ensures TotalCount(RowsFor(keys, records)) == CountsOver(keys, records, ByCreator)
  {
    if |keys| > 0 {
      var init := keys[..|keys| - 1];
      assert RowsFor(keys, records)[..|keys| - 1] == RowsFor(init, records);
      TotalCountOfRows(init, records);
    }
  }

  /**
   * The creator table: one row per distinct creator key, each with at least
   * one record, and the counts add up to the number of records.
   */
  lemma PerformanceCoversRecords(records: seq<StoredRecord>)
    ensures var rows := PerformanceRows(records);
      && TotalCount(rows) == |records|
      && (forall i :: 0 <= i < |rows| ==> rows[i].count >= 1)
      && (forall i, j :: 0 <= i < j < |rows| ==> rows[i].userId != rows[j].userId)
      && (forall k :: (exists i :: 0 <= i < |rows| && rows[i].userId == k) <==> GroupCount(records, ByCreator, k) > 0)
  {
    var keys := Keys(records, ByCreator);
    KeysAreGroups(records, ByCreator);
    GroupsPartition(records, ByCreator);
    TotalCountOfRows(keys, records);
    RowsOfGroups(keys, records);
  }

  /** Rows for distinct keys of non-empty groups: one per key, in key order, each non-empty and distinct. */
  lemma RowsOfGroups(keys: seq<string>, records: seq<StoredRecord>)
    requires Distinct(keys)
    requires forall k :: k in keys <==> GroupCount(records, ByCreator, k) > 0
    ensures var rows := RowsFor(keys, records);
      && (forall i :: 0 <= i < |rows| ==> rows[i].count >= 1)
      && (forall i, j :: 0 <= i < j < |rows| ==> rows[i].userId != rows[j].userId)
      && (forall k :: (exists i :: 0 <= i < |rows| && rows[i].userId == k) <==> GroupCount(records, ByCreator, k) > 0)
  {
    var rows := RowsFor(keys, records);
    forall i | 0 <= i < |rows|
      ensures rows[i].count >= 1
    {
      assert keys[i] in keys;
    }
    forall k
      ensures (exists i :: 0 <= i < |rows| && rows[i].userId == k) <==> GroupCount(records, ByCreator, k) > 0
    {
      if GroupCount(records, ByCreator, k) > 0 {
        var i :| 0 <= i < |keys| && keys[i] == k;
        assert rows[i].userId == k;
      }
    }
  }

  /** A record's creator key names the group it is counted in. */
  lemma CreatorGroupOfRecord(records: seq<StoredRecord>, i: nat)
    requires i < |records|
    ensures GroupCount(records, ByCreator, CreatorKey(records[i])) >= 1
  {
    KeysAreGroups(records, ByCreator);
    RecordInKeys(records, ByCreator, i);
  }

  lemma {:induction false} RecordInKeys(records: seq<StoredRecord>, g: Grouping, i: nat)
    requires Keyed(g) && i < |records|
    ensures KeyOf(g, records[i]) in Keys(records, g)
  {
    var init := records[..|records| - 1];
    if i < |records| - 1 {
      RecordInKeys(init, g, i);
      assert init[i] == records[i];
    }
  }

  // ---------------------------------------------------------------- rating

  function SalesOf(row: UserSales): real {
    row.sales
  }

  /** The rating table: the creator rows ordered by non-increasing sales. */
  function Rating(rows: seq<UserSales>): (r: seq<UserSales>)
    ensures forall i, j :: 0 <= i < j < |r| ==> r[i].sales >= r[j].sales
    ensures multiset(r) == multiset(rows)
  {
    SortDesc(rows, SalesOf)
  }
}
