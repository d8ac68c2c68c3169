/**
 * The stored sales record as the dashboards and the analytics charts read it,
 * and the sums and groupings they compute over a list of records.
 */
module Records {
  import opened Wrappers

  /**
   * A stored sales record, reduced to the fields the aggregations read. The
   * derived amounts come back from the database and may be missing.
   */
  datatype StoredRecord = StoredRecord(
    name: string,
    quantity: real,
    createdBy: Option<string>,
    totalSellingVat: Option<real>,
    totalExpenses: Option<real>,
    totalNetIncome: Option<real>,
    ndsTax: Option<real>,
    kpnTax: Option<real>,
    marginPercent: Option<real>
  )

  /** `x || 0` (and `x ?? 0`): a missing amount counts as 0. */
  function OrZero(x: Option<real>): real {
    if x.Some? then x.value else 0.0
  }

  /** `quantity || 1`: a zero quantity counts as one unit. */
  function UnitsOf(r: StoredRecord): real {
    if r.quantity == 0.0 then 1.0 else r.quantity
  }

  /** `tax ? tax * (quantity || 1) : 0`: a tax charged per unit, nothing when missing or 0. */
  function Charged(tax: Option<real>, r: StoredRecord): real {
    if tax.Some? && tax.value != 0.0 then tax.value * UnitsOf(r) else 0.0
  }

  /** The per-record amounts the dashboards and charts add up. */
  datatype Measure = SellingVat | Expenses | NetIncome | Margin | Quantity | VatCharged | CitCharged

  function Value(m: Measure, r: StoredRecord): real {
    match m
    case SellingVat => OrZero(r.totalSellingVat)
    case Expenses => OrZero(r.totalExpenses)
    case NetIncome => OrZero(r.totalNetIncome)
    case Margin => OrZero(r.marginPercent)
    case Quantity => r.quantity
    case VatCharged => Charged(r.ndsTax, r)
    case CitCharged => Charged(r.kpnTax, r)
  }

  /** The sum of a measure over the records, added in list order. */
  function Sum(records: seq<StoredRecord>, m: Measure): real {
    if |records| == 0 then 0.0
    else Sum(records[..|records| - 1], m) + Value(m, records[|records| - 1])
  }

  /** The number of records whose margin is present (`typeof margin_percent === "number"`). */
  function MarginCount(records: seq<StoredRecord>): (n: nat)
    ensures n <= |records|
  {
    if |records| == 0 then 0
    else MarginCount(records[..|records| - 1]) + (if records[|records| - 1].marginPercent.Some? then 1 else 0)
  }

  /** `created_by || "unknown"`: a missing or empty creator is grouped as "unknown". */
  function CreatorKey(r: StoredRecord): string {
    if r.createdBy.Some? && r.createdBy.value != "" then r.createdBy.value else "unknown"
  }

  /**
   * How records are grouped: by creator key, by product name, or by exact
   * owner id (`created_by === id`, which a missing creator never matches).
   */
  datatype Grouping = ByCreator | ByName | ByOwner

  predicate Matches(g: Grouping, r: StoredRecord, k: string) {
    match g
    case ByCreator => CreatorKey(r) == k
    case ByName => r.name == k
    case ByOwner => r.createdBy == Some(k)
  }

  /** The groupings whose groups are named by a key every record has. */
  predicate Keyed(g: Grouping) {
    !g.ByOwner?
  }

  function KeyOf(g: Grouping, r: StoredRecord): (k: string)
    requires Keyed(g)
    ensures Matches(g, r, k)
  {
    if g.ByCreator? then CreatorKey(r) else r.name
  }

  /** The sum of a measure over the records of one group. */
  function GroupSum(records: seq<StoredRecord>, g: Grouping, k: string, m: Measure): real {
    if |records| == 0 then 0.0
    else
      var last := records[|records| - 1];
      GroupSum(records[..|records| - 1], g, k, m) + (if Matches(g, last, k) then Value(m, last) else 0.0)
  }

  /** The number of records in one group. */
  function GroupCount(records: seq<StoredRecord>, g: Grouping, k: string): (n: nat)
    ensures n <= |records|
  {
    if |records| == 0 then 0
    else GroupCount(records[..|records| - 1], g, k) + (if Matches(g, records[|records| - 1], k) then 1 else 0)
  }

  /** The group keys in order of first appearance (the insertion order of a Map or plain object). */
  function Keys(records: seq<StoredRecord>, g: Grouping): seq<string>
    requires Keyed(g)
  {
    if |records| == 0 then []
    else
      var before := Keys(records[..|records| - 1], g);
      var k := KeyOf(g, records[|records| - 1]);
      if k in before then before else before + [k]
  }

  predicate Distinct(keys: seq<string>) {
    forall i, j :: 0 <= i < j < |keys| ==> keys[i] != keys[j]
  }

  /** The sum of the group sizes over a list of keys. */
  function CountsOver(keys: seq<string>, records: seq<StoredRecord>, g: Grouping): nat {
    if |keys| == 0 then 0
    else CountsOver(keys[..|keys| - 1], records, g) + GroupCount(records, g, keys[|keys| - 1])
  }

  // ---------------------------------------------------------------- lemmas

  /** Sums split over a concatenation: the totals of two lists add up. */
  lemma {:induction false} SumAppend(a: seq<StoredRecord>, b: seq<StoredRecord>, m: Measure)
    ensures Sum(a + b, m) == Sum(a, m) + Sum(b, m)
    decreases |b|
  {
    if |b| > 0 {
      assert (a + b)[..|a + b| - 1] == a + b[..|b| - 1];
      SumAppend(a, b[..|b| - 1], m);
    } else {
      assert a + b == a;
    }
  }

  /**
   * The keys are distinct, and a key is listed exactly when its group is
   * non-empty.
   */
  lemma {:induction false} KeysAreGroups(records: seq<StoredRecord>, g: Grouping)
    requires Keyed(g)
    ensures Distinct(Keys(records, g))
    ensures forall k :: k in Keys(records, g) <==> GroupCount(records, g, k) > 0
  {
    if |records| > 0 {
      var init := records[..|records| - 1];
      KeysAreGroups(init, g);
      forall k
        ensures k in Keys(records, g) <==> GroupCount(records, g, k) > 0
      {
        assert Matches(g, records[|records| - 1], k) <==> KeyOf(g, records[|records| - 1]) == k by {
          MatchesIsKey(g, records[|records| - 1], k);
        }
      }
    }
  }

  lemma MatchesIsKey(g: Grouping, r: StoredRecord, k: string)
    requires Keyed(g)
    ensures Matches(g, r, k) <==> KeyOf(g, r) == k
  {
  }

  /** Adding a record to the list adds one to the size of exactly one listed group. */
  lemma {:induction false} CountsOverStep(keys: seq<string>, records: seq<StoredRecord>, g: Grouping, r: StoredRecord)
    requires Keyed(g) && Distinct(keys)
    ensures CountsOver(keys, records + [r], g) == CountsOver(keys, records, g) + (if KeyOf(g, r) in keys then 1 else 0)
  {
    if |keys| > 0 {
      var init := keys[..|keys| - 1];
      assert Distinct(init);
      CountsOverStep(init, records, g, r);
      assert (records + [r])[..|records + [r]| - 1] == records;
      MatchesIsKey(g, r, keys[|keys| - 1]);
      assert KeyOf(g, r) in keys <==> KeyOf(g, r) in init || KeyOf(g, r) == keys[|keys| - 1];
      assert KeyOf(g, r) == keys[|keys| - 1] ==> KeyOf(g, r) !in init;
    }
  }

  /** The group sizes over the keys add up to the number of records: every record is in exactly one group. */
  lemma {:induction false} GroupsPartition(records: seq<StoredRecord>, g: Grouping)
    requires Keyed(g)
    ensures CountsOver(Keys(records, g), records, g) == |records|
  {
    if |records| > 0 {
      var init := records[..|records| - 1];
      var r := records[|records| - 1];
      var k := KeyOf(g, r);
      var before := Keys(init, g);
      GroupsPartition(init, g);
      KeysAreGroups(init, g);
      assert records == init + [r];
      CountsOverStep(before, init, g, r);
      if k !in before {
        CountsOverStep(before + [k], init, g, r);
        assert (before + [k])[..|before + [k]| - 1] == before;
        assert GroupCount(init, g, k) == 0;
        assert Distinct(before + [k]);
      }
    }
  }

  /** `s` lies within n·lo and n·hi. */
  predicate Between(lo: real, hi: real, n: nat, s: real) {
    lo * (n as real) <= s <= hi * (n as real)
  }

  /**
   * When every record of a group has its measure within [lo, hi], the group's
   * sum lies within count·lo and count·hi: a guarded average is a mean.
   */
  lemma {:induction false} GroupSumBounds(records: seq<StoredRecord>, g: Grouping, k: string, m: Measure, lo: real, hi: real)
    requires forall i :: 0 <= i < |records| && Matches(g, records[i], k) ==> lo <= Value(m, records[i]) <= hi
    ensures Between(lo, hi, GroupCount(records, g, k), GroupSum(records, g, k, m))
  {
    if |records| > 0 {
      var init := records[..|records| - 1];
      var last := records[|records| - 1];
      forall i | 0 <= i < |init| && Matches(g, init[i], k)
        ensures lo <= Value(m, init[i]) <= hi
      {
        assert init[i] == records[i];
      }
      GroupSumBounds(init, g, k, m, lo, hi);
      if Matches(g, last, k) {
        BoundsStep(lo, hi, GroupCount(init, g, k), GroupSum(init, g, k, m), Value(m, last));
      }
    } else {
      BoundsBase(lo, hi);
    }
  }

  lemma BoundsBase(lo: real, hi: real)
    ensures Between(lo, hi, 0, 0.0)
  {
  }

  lemma BoundsStep(lo: real, hi: real, n: nat, s: real, v: real)
    requires Between(lo, hi, n, s) && lo <= v <= hi
    ensures Between(lo, hi, n + 1, s + v)
  {
    var c := n as real;
    assert (n + 1) as real == c + 1.0;
    assert lo * (c + 1.0) == lo * c + lo;
    assert hi * (c + 1.0) == hi * c + hi;
  }

  /** The present margins bound their sum by their count: the average margin is a mean of present margins. */
  lemma {:induction false} MarginSumBounds(records: seq<StoredRecord>, lo: real, hi: real)
    requires forall i :: 0 <= i < |records| && records[i].marginPercent.Some? ==> lo <= records[i].marginPercent.value <= hi
    ensures Between(lo, hi, MarginCount(records), Sum(records, Margin))
  {
    if |records| > 0 {
      var init := records[..|records| - 1];
      var last := records[|records| - 1];
      forall i | 0 <= i < |init| && init[i].marginPercent.Some?
        ensures lo <= init[i].marginPercent.value <= hi
      {
        assert init[i] == records[i];
      }
      MarginSumBounds(init, lo, hi);
      if last.marginPercent.Some? {
        BoundsStep(lo, hi, MarginCount(init), Sum(init, Margin), Value(Margin, last));
      }
    } else {
      BoundsBase(lo, hi);
    }
  }

  /** Dividing a sum within n·lo and n·hi by n > 0 lands within [lo, hi]. */
  lemma MeanWithin(lo: real, hi: real, n: nat, s: real)
    requires n > 0 && Between(lo, hi, n, s)
    ensures lo <= s / (n as real) <= hi
  {
    var c := n as real;
    assert (s / c) * c == s;
  }
}
