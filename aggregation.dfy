/**
 * What one worker (SubProcessForBrandId) computes: a fold of its company's
 * records into a dictionary from aggregation key to summary row, and the
 * reference definitions its result is proved against (the key set, the
 * per-key sums, the record that seeds each entry).
 */
module Aggregation {
  import opened Calendar
  import opened SalesTypes
  import opened SummaryKeys

  /**
   * How a worker classifies a record: its aggregation key and its week
   * bucket. The worker's own classification is WorkerBucketing below; the
   * properties of the fold hold for every classification.
   */
  datatype Bucketing = Bucketing(key: Dto -> string, yearWeek: Dto -> int)

  /** Lines 265-266: the bucket of the record's date at month `nowMonth`, and the key built from it. */
  function WorkerBucketing(nowMonth: int): Bucketing {
    Bucketing((d: Dto) => KeyOf(d, nowMonth), (d: Dto) => YearWeek(d.salesDate, nowMonth))
  }

  /**
   * The worker's classification separates groups: for five-character brand
   * and store codes and years after 1000, two records get the same key
   * exactly when brand, product, store and week bucket agree.
   */
  lemma WorkerKeyInjective(d1: Dto, d2: Dto, nowMonth: int)
    requires |d1.brandId| == |d2.brandId| == 5 && |d1.storeId| == |d2.storeId| == 5
    requires d1.salesDate.year > 1000 && d2.salesDate.year > 1000
    ensures var b := WorkerBucketing(nowMonth);
      b.key(d1) == b.key(d2) <==>
      && d1.brandId == d2.brandId && d1.productId == d2.productId && d1.storeId == d2.storeId
      && b.yearWeek(d1) == b.yearWeek(d2)
  {
    KeyOfInjective(d1, d2, nowMonth);
  }

  /** A new entry, seeded from the first record with its key (lines 278-287). */
  function Seed(d: Dto, yearWeek: int): Summary {
    Summary(d.productId, d.companyId, d.storeId, d.brandId, yearWeek, d.volume, d.price)
  }

  /** A later record with the same key adds its price and its volume (lines 271-272). */
  function Accumulate(s: Summary, d: Dto): Summary {
    s.(totalPrice := s.totalPrice + d.price, totalVolume := s.totalVolume + d.volume)
  }

  /**
   * A worker's Dictionary<string, SummarizedSalesData>: its entries, and the
   * order in which it enumerates their values (the order of insertion, as
   * entries are never removed while the worker runs).
   */
  datatype Table = Table(entries: map<string, Summary>, order: seq<string>)

  const EmptyTable := Table(map[], [])

  /** The enumeration order lists every key exactly once. */
  predicate WellFormed(t: Table) {
    && |t.order| == |t.entries|
    && (forall i :: 0 <= i < |t.order| ==> t.order[i] in t.entries)
    && (forall k :: k in t.entries ==> k in t.order)
    && (forall i, j :: 0 <= i < j < |t.order| ==> t.order[i] != t.order[j])
  }

  /**
   * One iteration of the worker loop (lines 265-289): a hit updates only the
   * entry with the record's key and adds no entry, a miss adds exactly one.
   */
  function Step(t: Table, d: Dto, b: Bucketing): (r: Table)
    ensures WellFormed(t) ==> WellFormed(r)
    ensures r.entries.Keys == t.entries.Keys + {b.key(d)}
    ensures |r.entries| == |t.entries| + (if b.key(d) in t.entries then 0 else 1)
    ensures forall k :: k in t.entries && k != b.key(d) ==> r.entries[k] == t.entries[k]
    ensures r.entries[b.key(d)] ==
      if b.key(d) in t.entries then Accumulate(t.entries[b.key(d)], d) else Seed(d, b.yearWeek(d))
  {
    var yearWeek := b.yearWeek(d);
    var key := b.key(d);
    if key in t.entries then
      Table(t.entries[key := Accumulate(t.entries[key], d)], t.order)
    else
      Table(t.entries[key := Seed(d, yearWeek)], t.order + [key])
  }

  /** The worker loop over the records it drains, starting from dictionary `t`. */
  function Aggregate(t: Table, ds: seq<Dto>, b: Bucketing): Table
    decreases |ds|
  {
    if ds == [] then t else Step(Aggregate(t, ds[..|ds| - 1], b), ds[|ds| - 1], b)
  }

  /** The worker loop takes one more record. */
  lemma AggregateSnoc(t: Table, ds: seq<Dto>, d: Dto, b: Bucketing)
    ensures Aggregate(t, ds + [d], b) == Step(Aggregate(t, ds, b), d, b)
  {
    assert (ds + [d])[..|ds|] == ds;
  }

  /** The same step, for a loop that walks `ds` by index. */
  lemma AggregatePrefix(t: Table, ds: seq<Dto>, n: nat, b: Bucketing)
    requires n < |ds|
    ensures Aggregate(t, ds[..n + 1], b) == Step(Aggregate(t, ds[..n], b), ds[n], b)
  {
    assert ds[..n + 1][..n] == ds[..n];
  }

  /** The dictionary of a worker that started empty and drained `ds`. */
  function Fold(ds: seq<Dto>, b: Bucketing): Table {
    Aggregate(EmptyTable, ds, b)
  }

  /** The values of the dictionary in the order of `keys`; a key without an entry contributes nothing. */
  function ValuesOf(entries: map<string, Summary>, keys: seq<string>): seq<Summary>
    decreases |keys|
  {
    if keys == [] then []
    else
      var last := keys[|keys| - 1];
      ValuesOf(entries, keys[..|keys| - 1]) + if last in entries then [entries[last]] else []
  }

  /** `Result`, the dictionary's values (line 229), in enumeration order. */
  function Values(t: Table): seq<Summary> {
    ValuesOf(t.entries, t.order)
  }

  /** When every listed key has an entry, the values are the entries of the keys, one for one. */
  lemma {:induction false} ValuesOfIndex(entries: map<string, Summary>, keys: seq<string>)
    requires forall i :: 0 <= i < |keys| ==> keys[i] in entries
    ensures |ValuesOf(entries, keys)| == |keys|
    ensures forall i :: 0 <= i < |keys| ==> ValuesOf(entries, keys)[i] == entries[keys[i]]
    decreases |keys|
  {
    if keys != [] {
      var n := |keys| - 1;
      assert forall i :: 0 <= i < n ==> keys[..n][i] == keys[i];
      ValuesOfIndex(entries, keys[..n]);
    }
  }

  /** A dictionary yields one value per entry, in its enumeration order. */
  lemma ValuesOfTable(t: Table)
    requires WellFormed(t)
    ensures |Values(t)| == |t.entries|
    ensures forall i :: 0 <= i < |t.order| ==> Values(t)[i] == t.entries[t.order[i]]
  {
    ValuesOfIndex(t.entries, t.order);
  }

  // Reference definitions over the records a worker drained

  /** The distinct keys among the records. */
  function KeySet(ds: seq<Dto>, b: Bucketing): set<string> {
    set i | 0 <= i < |ds| :: b.key(ds[i])
  }

  /** Sum of the prices of the records with key `key`. */
  function PriceSum(ds: seq<Dto>, key: string, b: Bucketing): int
    decreases |ds|
  {
    if ds == [] then 0
    else PriceSum(ds[..|ds| - 1], key, b) + (if b.key(ds[|ds| - 1]) == key then ds[|ds| - 1].price else 0)
  }

  /** Sum of the volumes of the records with key `key`. */
  function VolumeSum(ds: seq<Dto>, key: string, b: Bucketing): real
    decreases |ds|
  {
    if ds == [] then 0.0
    else VolumeSum(ds[..|ds| - 1], key, b) + (if b.key(ds[|ds| - 1]) == key then ds[|ds| - 1].volume else 0.0)
  }

  /** Record `i` is the first one with its key. */
  predicate FirstWithKey(ds: seq<Dto>, i: int, b: Bucketing) {
    0 <= i < |ds| && forall j :: 0 <= j < i ==> b.key(ds[j]) != b.key(ds[i])
  }

  /** Every field of a summary row except its two totals. */
  predicate SameGroupFields(s: Summary, t: Summary) {
    && s.productId == t.productId && s.companyId == t.companyId
    && s.storeId == t.storeId && s.brandId == t.brandId && s.weekNumber == t.weekNumber
  }

  function PriceOf(d: Dto): int {
    d.price
  }

  /** Sum of a weight over records. */
  function SumOf(ds: seq<Dto>, weight: Dto -> int): int
    decreases |ds|
  {
    if ds == [] then 0 else SumOf(ds[..|ds| - 1], weight) + weight(ds[|ds| - 1])
  }

  /** Sum of the total prices of summary rows. */
  function TotalPrice(rows: seq<Summary>): int
    decreases |rows|
  {
    if rows == [] then 0 else TotalPrice(rows[..|rows| - 1]) + rows[|rows| - 1].totalPrice
  }

  // Properties of the fold

  lemma KeySetSnoc(ds: seq<Dto>, d: Dto, b: Bucketing)
    ensures KeySet(ds + [d], b) == KeySet(ds, b) + {b.key(d)}
  {
    var ds' := ds + [d];
    forall k | k in KeySet(ds', b) ensures k in KeySet(ds, b) + {b.key(d)} {
      var i :| 0 <= i < |ds'| && b.key(ds'[i]) == k;
      if i < |ds| { assert ds'[i] == ds[i]; }
    }
    forall k | k in KeySet(ds, b) ensures k in KeySet(ds', b) {
      var i :| 0 <= i < |ds| && b.key(ds[i]) == k;
      assert ds'[i] == ds[i];
    }
    assert ds'[|ds|] == d;
  }

  lemma FoldSnoc(ds: seq<Dto>, b: Bucketing)
    requires ds != []
    ensures Fold(ds, b) == Step(Fold(ds[..|ds| - 1], b), ds[|ds| - 1], b)
  {
  }

  /** The keys of all records are the keys of all but the last, and the last record's key. */
  lemma KeySetLast(ds: seq<Dto>, b: Bucketing)
    requires ds != []
    ensures KeySet(ds, b) == KeySet(ds[..|ds| - 1], b) + {b.key(ds[|ds| - 1])}
  {
    var n := |ds| - 1;
    var ds' := ds[..n];
    assert forall j :: 0 <= j < n ==> ds'[j] == ds[j];
    KeySetSnoc(ds', ds[n], b);
    forall k | k in KeySet(ds, b) ensures k in KeySet(ds' + [ds[n]], b) {
      var i :| 0 <= i < |ds| && b.key(ds[i]) == k;
      assert (ds' + [ds[n]])[i] == ds[i];
    }
    forall k | k in KeySet(ds' + [ds[n]], b) ensures k in KeySet(ds, b) {
      var i :| 0 <= i < n + 1 && b.key((ds' + [ds[n]])[i]) == k;
      assert (ds' + [ds[n]])[i] == ds[i];
    }
  }

  /** A drained worker has exactly one entry per distinct key among its records, each listed once. */
  lemma {:induction false} FoldKeys(ds: seq<Dto>, b: Bucketing)
    ensures WellFormed(Fold(ds, b))
    ensures Fold(ds, b).entries.Keys == KeySet(ds, b)
    ensures |Fold(ds, b).entries| == |KeySet(ds, b)|
    decreases |ds|
  {
    if ds != [] {
      var ds' := ds[..|ds| - 1];
      var d := ds[|ds| - 1];
      FoldKeys(ds', b);
      FoldSnoc(ds, b);
      KeySetLast(ds, b);
      assert Fold(ds, b).entries.Keys == Fold(ds', b).entries.Keys + {b.key(d)};
    }
    assert |Fold(ds, b).entries| == |Fold(ds, b).entries.Keys|;
  }

  /**
   * Each entry's totals are the sums of price and of volume over the
   * records with its key; a key no record has sums to zero.
   */
  lemma {:induction false} FoldTotals(ds: seq<Dto>, b: Bucketing)
    ensures forall k :: k in Fold(ds, b).entries ==>
      && Fold(ds, b).entries[k].totalPrice == PriceSum(ds, k, b)
      && Fold(ds, b).entries[k].totalVolume == VolumeSum(ds, k, b)
    ensures forall k :: k !in Fold(ds, b).entries ==>
      PriceSum(ds, k, b) == 0 && VolumeSum(ds, k, b) == 0.0
    decreases |ds|
  {
    if ds != [] {
      FoldTotals(ds[..|ds| - 1], b);
    }
  }

  /** The first record with its key finds no entry for that key. */
  lemma FirstKeyIsNew(ds: seq<Dto>, i: int, b: Bucketing)
    requires FirstWithKey(ds, i, b) && i == |ds| - 1
    ensures b.key(ds[i]) !in KeySet(ds[..i], b)
  {
    var n := i;
    assert forall j :: 0 <= j < n ==> ds[..n][j] == ds[j];
  }

  /**
   * The fields of an entry other than its totals come from the first record
   * with its key; later records with that key do not change them.
   */
  lemma {:induction false} FoldSeed(ds: seq<Dto>, i: int, b: Bucketing)
    requires FirstWithKey(ds, i, b)
    ensures b.key(ds[i]) in Fold(ds, b).entries
    ensures SameGroupFields(Fold(ds, b).entries[b.key(ds[i])], Seed(ds[i], b.yearWeek(ds[i])))
    decreases |ds|
  {
    var n := |ds| - 1;
    var ds' := ds[..n];
    FoldSnoc(ds, b);
    if i < n {
      FirstWithKeyPrefix(ds, i, b);
      FoldSeed(ds', i, b);
      assert ds'[i] == ds[i];
      StepKeepsGroup(Fold(ds', b), ds[n], b, b.key(ds[i]));
    } else {
      FirstKeyIsNew(ds, i, b);
      FoldKeys(ds', b);
    }
  }

  /** A record that is first with its key is still first once later records are dropped. */
  lemma FirstWithKeyPrefix(ds: seq<Dto>, i: int, b: Bucketing)
    requires FirstWithKey(ds, i, b) && i < |ds| - 1
    ensures FirstWithKey(ds[..|ds| - 1], i, b)
  {
    var ds' := ds[..|ds| - 1];
    assert forall j :: 0 <= j <= i ==> ds'[j] == ds[j];
  }

  /** A step keeps every entry, and keeps each entry's fields other than its totals. */
  lemma StepKeepsGroup(t: Table, d: Dto, b: Bucketing, k: string)
    requires k in t.entries
    ensures k in Step(t, d, b).entries
    ensures SameGroupFields(Step(t, d, b).entries[k], t.entries[k])
  {
  }

  /** Updating an entry whose key is not listed leaves the listed values alone. */
  lemma {:induction false} ValuesOfUpdateOutside(entries: map<string, Summary>, keys: seq<string>, key: string, s: Summary)
    requires key !in keys
    ensures ValuesOf(entries[key := s], keys) == ValuesOf(entries, keys)
    decreases |keys|
  {
    if keys != [] {
      ValuesOfUpdateOutside(entries, keys[..|keys| - 1], key, s);
    }
  }

  lemma TotalPriceSnoc(rows: seq<Summary>, row: Summary)
    ensures TotalPrice(rows + [row]) == TotalPrice(rows) + row.totalPrice
  {
    assert (rows + [row])[..|rows|] == rows;
  }

  /** Replacing the entry of a key listed once changes the total price by the difference. */
  lemma {:induction false} TotalPriceUpdate(entries: map<string, Summary>, keys: seq<string>, key: string, s: Summary)
    requires key in entries
    requires forall i, j :: 0 <= i < j < |keys| ==> keys[i] != keys[j]
    requires key in keys
    ensures TotalPrice(ValuesOf(entries[key := s], keys)) ==
      TotalPrice(ValuesOf(entries, keys)) + s.totalPrice - entries[key].totalPrice
    decreases |keys|
  {
    var n := |keys| - 1;
    var keys', last := keys[..n], keys[n];
    var updated := entries[key := s];
    if last == key {
      assert ValuesOf(entries, keys) == ValuesOf(entries, keys') + [entries[key]];
      assert ValuesOf(updated, keys) == ValuesOf(updated, keys') + [s];
      TotalPriceSnoc(ValuesOf(entries, keys'), entries[key]);
      TotalPriceSnoc(ValuesOf(updated, keys'), s);
      forall j | 0 <= j < n ensures keys'[j] != key {
        assert keys'[j] == keys[j] && keys[j] != keys[n];
      }
      ValuesOfUpdateOutside(entries, keys', key, s);
    } else {
      var i :| 0 <= i < |keys| && keys[i] == key;
      assert keys'[i] == key;
      assert forall j :: 0 <= j < n ==> keys'[j] == keys[j];
      TotalPriceUpdate(entries, keys', key, s);
      if last in entries {
        assert ValuesOf(entries, keys) == ValuesOf(entries, keys') + [entries[last]];
        assert ValuesOf(updated, keys) == ValuesOf(updated, keys') + [entries[last]];
        TotalPriceSnoc(ValuesOf(entries, keys'), entries[last]);
        TotalPriceSnoc(ValuesOf(updated, keys'), entries[last]);
      } else {
        assert ValuesOf(entries, keys) == ValuesOf(entries, keys') + [] == ValuesOf(entries, keys');
        assert ValuesOf(updated, keys) == ValuesOf(updated, keys') + [] == ValuesOf(updated, keys');
      }
    }
  }

  /** A step adds the record's price to the dictionary's total price. */
  lemma StepTotalPrice(t: Table, d: Dto, b: Bucketing)
    requires WellFormed(t)
    ensures TotalPrice(Values(Step(t, d, b))) == TotalPrice(Values(t)) + d.price
  {
    var key := b.key(d);
    var r := Step(t, d, b);
    if key in t.entries {
      TotalPriceUpdate(t.entries, t.order, key, r.entries[key]);
    } else {
      ValuesOfUpdateOutside(t.entries, t.order, key, r.entries[key]);
      assert Values(r) == ValuesOf(r.entries, t.order) + [r.entries[key]];
      TotalPriceSnoc(ValuesOf(r.entries, t.order), r.entries[key]);
    }
  }

  /** The fold loses and invents no money: its total price is the sum of the records' prices. */
  lemma {:induction false} FoldTotalPrice(ds: seq<Dto>, b: Bucketing)
    ensures WellFormed(Fold(ds, b))
    ensures TotalPrice(Values(Fold(ds, b))) == SumOf(ds, PriceOf)
    decreases |ds|
  {
    if ds != [] {
      var ds' := ds[..|ds| - 1];
      FoldTotalPrice(ds', b);
      StepTotalPrice(Fold(ds', b), ds[|ds| - 1], b);
    }
  }

  /** A worker that drained one record has one entry, seeded from it. */
  lemma FoldOne(d: Dto, b: Bucketing)
    ensures WellFormed(Fold([d], b))
    ensures Fold([d], b).order == [b.key(d)]
    ensures Fold([d], b).entries[b.key(d)] == Seed(d, b.yearWeek(d))
  {
    FoldSnoc([d], b);
    assert [d][..0] == [];
    assert Fold([], b) == EmptyTable;
    FoldKeys([d], b);
  }

  /** The values of a dictionary with one entry. */
  lemma ValuesOne(t: Table, k: string)
    requires WellFormed(t) && t.order == [k]
    ensures Values(t) == [t.entries[k]]
  {
    assert ValuesOf(t.entries, t.order) == ValuesOf(t.entries, []) + [t.entries[k]];
  }

  /** A worker that drained one record returns one row, seeded from it. */
  lemma FoldOneRow(d: Dto, b: Bucketing)
    ensures Values(Fold([d], b)) == [Seed(d, b.yearWeek(d))]
  {
    FoldOne(d, b);
    ValuesOne(Fold([d], b), b.key(d));
  }

  /** A worker that drained two records with one key returns one row holding both. */
  lemma FoldTwoSameKey(d1: Dto, d2: Dto, b: Bucketing)
    requires b.key(d1) == b.key(d2)
    ensures Values(Fold([d1, d2], b)) == [Accumulate(Seed(d1, b.yearWeek(d1)), d2)]
  {
    var t, k := Fold([d1, d2], b), b.key(d1);
    assert WellFormed(t) by { FoldTwo(d1, d2, b); FoldOne(d1, b); }
    assert t.order == [k] by { FoldTwo(d1, d2, b); FoldOne(d1, b); }
    assert t.entries[k] == Accumulate(Seed(d1, b.yearWeek(d1)), d2) by { FoldTwo(d1, d2, b); FoldOne(d1, b); }
    ValuesOne(t, k);
  }

  lemma FoldTwo(d1: Dto, d2: Dto, b: Bucketing)
    ensures Fold([d1, d2], b) == Step(Fold([d1], b), d2, b)
  {
    FoldSnoc([d1, d2], b);
    assert [d1, d2][..1] == [d1];
  }
}
