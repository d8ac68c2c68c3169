/**
 * The analytics charts: per-user performance, the margin distribution, and
 * the top products by income.
 */
module SalesCharts {
  import opened Wrappers
  import opened Records
  import opened Sorting
  import RecordForm

  // ---------------------------------------------------------------- per user

  /** A user as the charts receive it. */
  datatype ChartUser = ChartUser(id: string, name: Option<string>, role: string)

  /** One bar of the per-user chart. */
  datatype UserStat = UserStat(id: string, name: string, role: string, income: real, margin: real, recordsCount: nat)

  const Unnamed: string := "Без имени"

  /**
   * A user's figures over the records they created (`created_by === id`):
   * the summed net income, the mean margin (0 with no records, a missing
   * margin counted as 0), and the record count.
   */
  function StatOf(u: ChartUser, records: seq<StoredRecord>): UserStat {
    var n := GroupCount(records, ByOwner, u.id);
    UserStat(
      u.id,
      if u.name.Some? && u.name.value != "" then u.name.value else Unnamed,
      u.role,
      GroupSum(records, ByOwner, u.id, NetIncome),
      if n > 0 then GroupSum(records, ByOwner, u.id, Margin) / (n as real) else 0.0,
      n)
  }

  /** `users.map(...)`: every user's figures, in the users' order. */
  function StatsOf(users: seq<ChartUser>, records: seq<StoredRecord>): (r: seq<UserStat>)
    ensures |r| == |users|
  {
    if |users| == 0 then [] else [StatOf(users[0], records)] + StatsOf(users[1..], records)
  }

  /** `.filter(user => user.recordsCount > 0)`. */
  function WithRecords(stats: seq<UserStat>): (r: seq<UserStat>)
    ensures |r| <= |stats|
    ensures forall i :: 0 <= i < |r| ==> r[i].recordsCount > 0
  {
    if |stats| == 0 then []
    else (if stats[0].recordsCount > 0 then [stats[0]] else []) + WithRecords(stats[1..])
  }

  /** `userPerformance`: the users' figures, keeping only users with at least one record. */
  function UserPerformance(users: seq<ChartUser>, records: seq<StoredRecord>): (r: seq<UserStat>)
    ensures |r| <= |users|
    ensures forall i :: 0 <= i < |r| ==> r[i].recordsCount > 0
  {
    WithRecords(StatsOf(users, records))
  }

  lemma {:induction false} StatsOfAppend(a: seq<ChartUser>, b: seq<ChartUser>, records: seq<StoredRecord>)
    ensures StatsOf(a + b, records) == StatsOf(a, records) + StatsOf(b, records)
  {
    if |a| == 0 {
      assert a + b == b;
    } else {
      assert (a + b)[0] == a[0];
      assert (a + b)[1..] == a[1..] + b;
      StatsOfAppend(a[1..], b, records);
    }
  }

  lemma {:induction false} WithRecordsAppend(s: seq<UserStat>, t: seq<UserStat>)
    ensures WithRecords(s + t) == WithRecords(s) + WithRecords(t)
  {
    if |s| == 0 {
      assert s + t == t;
    } else {
      assert (s + t)[0] == s[0];
      assert (s + t)[1..] == s[1..] + t;
      WithRecordsAppend(s[1..], t);
    }
  }

  /** The per-user list follows the order of the users list: it splits over a concatenation. */
  lemma UserPerformanceKeepsOrder(a: seq<ChartUser>, b: seq<ChartUser>, records: seq<StoredRecord>)
    ensures UserPerformance(a + b, records) == UserPerformance(a, records) + UserPerformance(b, records)
  {
    StatsOfAppend(a, b, records);
    WithRecordsAppend(StatsOf(a, records), StatsOf(b, records));
  }

  /** The filter keeps exactly the figures with a record. */
  lemma {:induction false} WithRecordsMembers(stats: seq<UserStat>)
    ensures forall s :: s in WithRecords(stats) <==> s in stats && s.recordsCount > 0
  {
    if |stats| > 0 {
      WithRecordsMembers(stats[1..]);
      assert forall s :: s in stats <==> s == stats[0] || s in stats[1..];
    }
  }

  /** The mapped list holds exactly the users' figures. */
  lemma {:induction false} StatsOfMembers(users: seq<ChartUser>, records: seq<StoredRecord>)
    ensures forall s :: s in StatsOf(users, records) <==> exists u :: u in users && s == StatOf(u, records)
  {
    if |users| > 0 {
      StatsOfMembers(users[1..], records);
      assert forall u :: u in users <==> u == users[0] || u in users[1..];
    }
  }

  /** The list holds exactly the figures of the users with at least one record. */
  lemma UserPerformanceMembers(users: seq<ChartUser>, records: seq<StoredRecord>)
    ensures forall s :: s in UserPerformance(users, records) ==>
      s.recordsCount >= 1 && exists u :: u in users && s == StatOf(u, records)
    ensures forall u :: u in users && GroupCount(records, ByOwner, u.id) > 0 ==> StatOf(u, records) in UserPerformance(users, records)
  {
    WithRecordsMembers(StatsOf(users, records));
    StatsOfMembers(users, records);
  }

  /**
   * A user's margin is a mean: with every one of their margins in [lo, hi],
   * so is the figure; a user without records gets 0.
   */
  lemma UserMarginWithin(u: ChartUser, records: seq<StoredRecord>, lo: real, hi: real)
    requires forall i :: 0 <= i < |records| && Matches(ByOwner, records[i], u.id) ==> lo <= Value(Margin, records[i]) <= hi
    ensures StatOf(u, records).recordsCount == 0 ==> StatOf(u, records).margin == 0.0
    ensures StatOf(u, records).recordsCount > 0 ==> lo <= StatOf(u, records).margin <= hi
  {
    var n := GroupCount(records, ByOwner, u.id);
    if n > 0 {
      GroupSumBounds(records, ByOwner, u.id, Margin, lo, hi);
      MeanWithin(lo, hi, n, GroupSum(records, ByOwner, u.id, Margin));
    }
  }

  // ---------------------------------------------------------------- margin distribution

  /** The three margin ranges of the pie chart. */
  datatype Band = High | Medium | Low

  /** `margin_percent || 0`, then from 30 high, from 20 medium, below that low. */
  function BandOf(r: StoredRecord): (b: Band)
    ensures b == High <==> RecordForm.ColorOfMargin(OrZero(r.marginPercent)) == RecordForm.Green
    ensures b == Medium <==> RecordForm.ColorOfMargin(OrZero(r.marginPercent)) == RecordForm.Yellow
    ensures b == Low <==> RecordForm.ColorOfMargin(OrZero(r.marginPercent)) == RecordForm.Red
  {
    var margin := OrZero(r.marginPercent);
    if margin >= 30.0 then High else if margin >= 20.0 then Medium else Low
  }

  function BandCount(records: seq<StoredRecord>, b: Band): nat {
    if |records| == 0 then 0
    else BandCount(records[..|records| - 1], b) + (if BandOf(records[|records| - 1]) == b then 1 else 0)
  }

  /** One slice of the pie: its caption, its count and its colour. */
  datatype MarginRange = MarginRange(name: string, count: nat, color: string)

  const HighName: string := "Высокая (>30%)"
  const MediumName: string := "Средняя (20-30%)"
  const LowName: string := "Низкая (<20%)"

  /**
   * `marginRanges`: three counters started at 0 and one of them incremented
   * per record.
   */
  method MarginRanges(records: seq<StoredRecord>) returns (ranges: seq<MarginRange>)
    ensures |ranges| == 3
    ensures ranges[0] == MarginRange(HighName, BandCount(records, High), "#22c55e")
    ensures ranges[1] == MarginRange(MediumName, BandCount(records, Medium), "#eab308")
    ensures ranges[2] == MarginRange(LowName, BandCount(records, Low), "#ef4444")
  {
    ranges := [MarginRange(HighName, 0, "#22c55e"), MarginRange(MediumName, 0, "#eab308"), MarginRange(LowName, 0, "#ef4444")];
    var i := 0;
    while i < |records|
      invariant 0 <= i <= |records|
      invariant |ranges| == 3
      invariant ranges[0] == MarginRange(HighName, BandCount(records[..i], High), "#22c55e")
      invariant ranges[1] == MarginRange(MediumName, BandCount(records[..i], Medium), "#eab308")
      invariant ranges[2] == MarginRange(LowName, BandCount(records[..i], Low), "#ef4444")
    {
      assert records[..i + 1][..i] == records[..i];
      var margin := if records[i].marginPercent.Some? then records[i].marginPercent.value else 0.0;
      if margin >= 30.0 {
        ranges := ranges[0 := ranges[0].(count := ranges[0].count + 1)];
      } else if margin >= 20.0 {
        ranges := ranges[1 := ranges[1].(count := ranges[1].count + 1)];
      } else {
        ranges := ranges[2 := ranges[2].(count := ranges[2].count + 1)];
      }
      i := i + 1;
    }
    assert records[..|records|] == records;
  }

  /** The three ranges partition the records: their counts add up to the number of records. */
  lemma {:induction false} BandsPartition(records: seq<StoredRecord>)
    ensures BandCount(records, High) + BandCount(records, Medium) + BandCount(records, Low) == |records|
  {
    if |records| > 0 {
      BandsPartition(records[..|records| - 1]);
    }
  }

  /** The ranges use the same thresholds as the margin badge of the record form. */
  lemma BandMatchesBadge(r: StoredRecord)
    ensures BandOf(r) == High <==> RecordForm.ColorOfMargin(OrZero(r.marginPercent)) == RecordForm.Green
    ensures BandOf(r) == Medium <==> RecordForm.ColorOfMargin(OrZero(r.marginPercent)) == RecordForm.Yellow
    ensures BandOf(r) == Low <==> RecordForm.ColorOfMargin(OrZero(r.marginPercent)) == RecordForm.Red
  {
  }

  // ---------------------------------------------------------------- products

  /** The running totals of one product name. */
  datatype ProductTotals = ProductTotals(name: string, totalIncome: real, totalQuantity: real, marginSum: real, recordsCount: nat)

  /** A product with its margin averaged. */
  datatype ProductStat = ProductStat(name: string, totalIncome: real, totalQuantity: real, averageMargin: real, recordsCount: nat)

  function TotalsOf(name: string, records: seq<StoredRecord>): ProductTotals {
    ProductTotals(
      name,
      GroupSum(records, ByName, name, NetIncome),
      GroupSum(records, ByName, name, Quantity),
      GroupSum(records, ByName, name, Margin),
      GroupCount(records, ByName, name))
  }

  /**
   * The names a plain object `{}` already answers through `Object.prototype`.
   * For such a name `acc[key]` is an inherited, truthy value, so the
   * accumulator creates no entry of its own and the record's additions land
   * on the inherited value.
   */
  const InheritedNames: set<string> := {
    "constructor", "__proto__", "__defineGetter__", "__defineSetter__", "__lookupGetter__", "__lookupSetter__",
    "hasOwnProperty", "isPrototypeOf", "propertyIsEnumerable", "toString", "toLocaleString", "valueOf" }

  /** The records whose product name gets an entry of its own, in order. */
  function Listed(records: seq<StoredRecord>, inherited: set<string>): seq<StoredRecord> {
    if |records| == 0 then []
    else
      var init := records[..|records| - 1];
      var last := records[|records| - 1];
      if last.name in inherited then Listed(init, inherited) else Listed(init, inherited) + [last]
  }

  /** The listed records are exactly the records whose name is not inherited. */
  lemma {:induction false} ListedMembers(records: seq<StoredRecord>, inherited: set<string>)
    ensures forall x :: x in Listed(records, inherited) <==> x in records && x.name !in inherited
  {
    if |records| > 0 {
      var init := records[..|records| - 1];
      ListedMembers(init, inherited);
      assert records == init + [records[|records| - 1]];
    }
  }

  /** One entry per listed product name, in order of first appearance. */
  function ProductGroups(records: seq<StoredRecord>, inherited: set<string>): seq<ProductTotals> {
    var own := Listed(records, inherited);
    var names := Keys(own, ByName);
    seq(|names|, i requires 0 <= i < |names| => TotalsOf(names[i], own))
  }

  /**
   * `productPerformance`: an object keyed by product name whose entry is
   * created on the name's first record and then accumulates income,
   * quantity, margin and count. `inherited` holds the names the object
   * answers before it has any entry (`InheritedNames` for the `{}` the
   * charts start from); such a name never gets an entry.
   */
  method ProductPerformance(records: seq<StoredRecord>, inherited: set<string>) returns (products: seq<ProductTotals>)
    ensures products == ProductGroups(records, inherited)
  {
    var names: seq<string> := [];
    var acc: map<string, ProductTotals> := map[];
    ghost var own: seq<StoredRecord> := [];
    var i := 0;
    while i < |records|
      invariant 0 <= i <= |records|
      invariant own == Listed(records[..i], inherited)
      invariant Accumulated(own, names, acc)
      invariant forall k :: k in acc ==> k !in inherited
    {
      ListedNext(records, i, inherited);
      var r := records[i];
      var key := r.name;
      if key in inherited {
        // `acc[key]` is the inherited value: the additions never reach an entry of `acc`
        assert key !in acc;
      } else {
        AccumulateStep(own, r, names, acc);
        ghost var before := acc;
        if key !in acc {
          acc := acc[key := ProductTotals(r.name, 0.0, 0.0, 0.0, 0)];
          names := names + [key];
        }
        acc := acc[key := AddRecord(acc[key], r)];
        if key !in before {
          OverwriteTwice(before, key, ProductTotals(r.name, 0.0, 0.0, 0.0, 0), AddRecord(ProductTotals(r.name, 0.0, 0.0, 0.0, 0), r));
        }
        own := own + [r];
      }
      i := i + 1;
    }
    assert records[..|records|] == records;
    products := seq(|names|, j requires 0 <= j < |names| => acc[names[j]]);
    ReadOut(records, names, acc, products, inherited);
  }

  /** Writing a key twice leaves only the second value. */
  lemma OverwriteTwice<K, V>(m: map<K, V>, k: K, first: V, second: V)
    ensures m[k := first][k := second] == m[k := second]
  {
  }

  /** One more record is listed exactly when its name is not inherited. */
  lemma ListedNext(records: seq<StoredRecord>, i: nat, inherited: set<string>)
    requires i < |records|
    ensures Listed(records[..i + 1], inherited) ==
      if records[i].name in inherited then Listed(records[..i], inherited) else Listed(records[..i], inherited) + [records[i]]
  {
    assert records[..i + 1][..i] == records[..i];
  }

  /** A record named after an inherited property adds no product and changes no total. */
  lemma InheritedNameIgnored(records: seq<StoredRecord>, r: StoredRecord, inherited: set<string>)
    requires r.name in inherited
    ensures ProductGroups(records + [r], inherited) == ProductGroups(records, inherited)
  {
    var all := records + [r];
    assert all[..|all| - 1] == records;
  }

  /** Reading the entries out in name order gives the product groups. */
  lemma ReadOut(records: seq<StoredRecord>, names: seq<string>, acc: map<string, ProductTotals>, products: seq<ProductTotals>, inherited: set<string>)
    requires Accumulated(Listed(records, inherited), names, acc)
    requires |products| == |names| && forall j :: 0 <= j < |names| ==> products[j] == acc[names[j]]
    ensures products == ProductGroups(records, inherited)
  {
  }

  /** One record added to its product's running totals. */
  function AddRecord(p: ProductTotals, r: StoredRecord): ProductTotals {
    p.(totalIncome := p.totalIncome + (if r.totalNetIncome.Some? then r.totalNetIncome.value else 0.0),
       totalQuantity := p.totalQuantity + r.quantity,
       marginSum := p.marginSum + (if r.marginPercent.Some? then r.marginPercent.value else 0.0),
       recordsCount := p.recordsCount + 1)
  }

  /** The grouping loop's invariant: names in first-appearance order, each with its group's totals. */
  ghost predicate Accumulated(records: seq<StoredRecord>, names: seq<string>, acc: map<string, ProductTotals>) {
    && names == Keys(records, ByName)
    && (forall k :: k in acc <==> k in names)
    && (forall k :: k in acc ==> acc[k] == TotalsOf(k, records))
  }

  /** One step of the grouping loop keeps its invariant. */
  lemma AccumulateStep(records: seq<StoredRecord>, r: StoredRecord, names: seq<string>, acc: map<string, ProductTotals>)
    requires Accumulated(records, names, acc)
    ensures var p := if r.name in acc then acc[r.name] else ProductTotals(r.name, 0.0, 0.0, 0.0, 0);
      Accumulated(records + [r], if r.name in acc then names else names + [r.name], acc[r.name := AddRecord(p, r)])
  {
    var all := records + [r];
    assert all[..|all| - 1] == records;
    KeysAreGroups(records, ByName);
    if r.name !in acc {
      assert GroupCount(records, ByName, r.name) == 0;
      EmptyNameGroup(records, r.name);
    }
  }

  /** An empty product group has all totals 0. */
  lemma {:induction false} EmptyNameGroup(records: seq<StoredRecord>, name: string)
    requires GroupCount(records, ByName, name) == 0
    ensures TotalsOf(name, records) == ProductTotals(name, 0.0, 0.0, 0.0, 0)
  {
    if |records| > 0 {
      EmptyNameGroup(records[..|records| - 1], name);
    }
  }

  /**
   * The product groups: distinct names, each with at least one record, and
   * the counts add up to the number of listed records.
   */
  lemma ProductGroupsPartition(records: seq<StoredRecord>, inherited: set<string>)
    ensures var groups := ProductGroups(records, inherited);
      && (forall i :: 0 <= i < |groups| ==> groups[i].recordsCount >= 1)
      && (forall i, j :: 0 <= i < j < |groups| ==> groups[i].name != groups[j].name)
      && CountsOver(Keys(Listed(records, inherited), ByName), Listed(records, inherited), ByName) == |Listed(records, inherited)|
  {
    KeysAreGroups(Listed(records, inherited), ByName);
    GroupsPartition(Listed(records, inherited), ByName);
  }

  /** `averageMargin / recordsCount`. */
  function Averaged(p: ProductTotals): ProductStat
    requires p.recordsCount > 0
  {
    ProductStat(p.name, p.totalIncome, p.totalQuantity, p.marginSum / (p.recordsCount as real), p.recordsCount)
  }

  function IncomeOf(p: ProductStat): real {
    p.totalIncome
  }

  /** The products with their margins averaged, in first-appearance order. */
  function ProductStats(records: seq<StoredRecord>, inherited: set<string>): (r: seq<ProductStat>)
    ensures |r| == |ProductGroups(records, inherited)|
  {
    var groups := ProductGroups(records, inherited);
    KeysAreGroups(Listed(records, inherited), ByName);
    seq(|groups|, i requires 0 <= i < |groups| => Averaged(groups[i]))
  }

  /** `topProducts`: the products by non-increasing income, at most five of them. */
  function TopProducts(records: seq<StoredRecord>): (r: seq<ProductStat>)
    ensures |r| <= 5
    ensures forall i, j :: 0 <= i < j < |r| ==> r[i].totalIncome >= r[j].totalIncome
  {
    var sorted := SortDesc(ProductStats(records, InheritedNames), IncomeOf);
    TakeSorted(sorted, IncomeOf, 5);
    Take(sorted, 5)
  }

  /**
   * The top list has at most five entries (fewer only when there are fewer
   * products), in non-increasing order of income, each one of the products,
   * and no product left out earns more than one listed.
   */
  lemma TopProductsAreBest(records: seq<StoredRecord>)
    ensures var top := TopProducts(records);
      var all := ProductStats(records, InheritedNames);
      && |top| == (if |all| < 5 then |all| else 5)
      && (forall i, j :: 0 <= i < j < |top| ==> top[i].totalIncome >= top[j].totalIncome)
      && (forall i :: 0 <= i < |top| ==> top[i] in all)
      && (forall i :: 0 <= i < |top| ==> forall j :: |top| <= j < |SortDesc(all, IncomeOf)| ==>
            top[i].totalIncome >= SortDesc(all, IncomeOf)[j].totalIncome)
  {
    TopFive(ProductStats(records, InheritedNames));
  }

  /** The first five of any list sorted by income: the best ones, in order, each from the list. */
  lemma TopFive(all: seq<ProductStat>)
    ensures var sorted := SortDesc(all, IncomeOf);
      var top := Take(sorted, 5);
      && |top| == (if |all| < 5 then |all| else 5)
      && (forall i, j :: 0 <= i < j < |top| ==> top[i].totalIncome >= top[j].totalIncome)
      && (forall i :: 0 <= i < |top| ==> top[i] in all)
      && (forall i :: 0 <= i < |top| ==> forall j :: |top| <= j < |sorted| ==> top[i].totalIncome >= sorted[j].totalIncome)
  {
    var sorted := SortDesc(all, IncomeOf);
    TakeSorted(sorted, IncomeOf, 5);
    TakeFrom(sorted, all, 5);
  }

  /** A product's average margin is a mean of its records' margins. */
  lemma ProductMarginWithin(records: seq<StoredRecord>, lo: real, hi: real, inherited: set<string>)
    requires forall i :: 0 <= i < |records| ==> lo <= Value(Margin, records[i]) <= hi
    ensures forall p :: p in ProductStats(records, inherited) ==> lo <= p.averageMargin <= hi
  {
    var own := Listed(records, inherited);
    var groups := ProductGroups(records, inherited);
    var names := Keys(own, ByName);
    var stats := ProductStats(records, inherited);
    KeysAreGroups(own, ByName);
    ListedMembers(records, inherited);
    forall i | 0 <= i < |own|
      ensures lo <= Value(Margin, own[i]) <= hi
    {
      assert own[i] in records;
    }
    forall p | p in stats
      ensures lo <= p.averageMargin <= hi
    {
      var i :| 0 <= i < |stats| && stats[i] == p;
      GroupSumBounds(own, ByName, names[i], Margin, lo, hi);
      MeanWithin(lo, hi, GroupCount(own, ByName, names[i]), GroupSum(own, ByName, names[i], Margin));
    }
  }
}
