/**
 * What the summarizer as a whole computes, stated on values: the ingested
 * records are routed by CompanyId to one worker per company, created in
 * the order in which the companies first appear (SummarizeSalesData.Run),
 * and the output is the concatenation of the workers' dictionaries in that
 * order (GetDatas).
 */
module Partitioning {
  import opened Calendar
  import opened SalesTypes
  import opened SummaryKeys
  import opened Aggregation

  /** The ingestion loop (lines 97-111): one record copy per input record, in input order. */
  function Ingest(items: seq<SalesData>): (r: seq<Dto>)
    ensures |r| == |items|
    ensures forall i :: 0 <= i < |items| ==>
      && r[i].companyId == items[i].companyId && r[i].brandId == items[i].brandId
      && r[i].productId == items[i].productId && r[i].storeId == items[i].storeId
      && r[i].salesDate == items[i].salesDate
      && r[i].price == items[i].price && r[i].volume == items[i].volume
    decreases |items|
  {
    if items == [] then [] else Ingest(items[..|items| - 1]) + [ToDto(items[|items| - 1])]
  }

  /** The ingestion loop copies one more record to the back of ReadedSales. */
  lemma IngestPrefix(items: seq<SalesData>, n: nat)
    requires n < |items|
    ensures Ingest(items[..n + 1]) == Ingest(items[..n]) + [ToDto(items[n])]
  {
    assert items[..n + 1][..n] == items[..n];
  }

  predicate Distinct(cs: seq<int>) {
    forall i, j :: 0 <= i < j < |cs| ==> cs[i] != cs[j]
  }

  /** The companies that occur among the records. */
  function CompanySet(ds: seq<Dto>): set<int> {
    set i | 0 <= i < |ds| :: ds[i].companyId
  }

  /** The companies in the order in which the router meets them for the first time. */
  function Companies(ds: seq<Dto>): (cs: seq<int>)
    ensures Distinct(cs)
    ensures forall c :: c in cs <==> c in CompanySet(ds)
    decreases |ds|
  {
    if ds == [] then []
    else
      var prefix, c := Companies(ds[..|ds| - 1]), ds[|ds| - 1].companyId;
      assert forall i :: 0 <= i < |ds| - 1 ==> ds[..|ds| - 1][i] == ds[i];
      if c in prefix then prefix else prefix + [c]
  }

  /** The records routed to the queue of company `c`, in the order they came in. */
  function Filter(ds: seq<Dto>, c: int): (r: seq<Dto>)
    ensures forall i :: 0 <= i < |r| ==> r[i].companyId == c
    ensures |r| <= |ds|
    decreases |ds|
  {
    if ds == [] then []
    else
      var prefix := Filter(ds[..|ds| - 1], c);
      if ds[|ds| - 1].companyId == c then prefix + [ds[|ds| - 1]] else prefix
  }

  /** The queue of each company of `cs`, in the order of `cs`. */
  function Partitions(ds: seq<Dto>, cs: seq<int>): (qs: seq<seq<Dto>>)
    ensures |qs| == |cs| && forall i :: 0 <= i < |cs| ==> qs[i] == Filter(ds, cs[i])
  {
    seq(|cs|, i requires 0 <= i < |cs| => Filter(ds, cs[i]))
  }

  /** The results of the workers of companies `cs`, one after the other (lines 197-207). */
  function Collect(ds: seq<Dto>, cs: seq<int>, b: Bucketing): seq<Summary>
    decreases |cs|
  {
    if cs == [] then []
    else
      Collect(ds, cs[..|cs| - 1], b) + Values(Fold(Filter(ds, cs[|cs| - 1]), b))
  }

  /** The rows of workers whose dictionaries are `ts`, worker after worker (lines 197-207). */
  function Rows(ts: seq<Table>): seq<Summary>
    decreases |ts|
  {
    if ts == [] then [] else Rows(ts[..|ts| - 1]) + Values(ts[|ts| - 1])
  }

  lemma RowsPrefix(ts: seq<Table>, n: nat)
    requires n < |ts|
    ensures Rows(ts[..n + 1]) == Rows(ts[..n]) + Values(ts[n])
  {
    assert ts[..n + 1][..n] == ts[..n];
  }

  /** The dictionary of the worker of each company of `cs` once it has drained its queue. */
  function WorkerTables(ds: seq<Dto>, cs: seq<int>, b: Bucketing): (ts: seq<Table>)
    ensures |ts| == |cs| && forall i :: 0 <= i < |cs| ==> ts[i] == Fold(Filter(ds, cs[i]), b)
  {
    seq(|cs|, i requires 0 <= i < |cs| => Fold(Filter(ds, cs[i]), b))
  }

  /** No worker's row is lost: every row of every worker is among the collected rows. */
  lemma {:induction false} RowsHoldEveryWorker(ts: seq<Table>)
    ensures forall i :: 0 <= i < |ts| ==> multiset(Values(ts[i])) <= multiset(Rows(ts))
    decreases |ts|
  {
    if ts != [] {
      var n := |ts| - 1;
      var front, last := Rows(ts[..n]), Values(ts[n]);
      RowsHoldEveryWorker(ts[..n]);
      assert Rows(ts) == front + last;
      assert multiset(front + last) == multiset(front) + multiset(last);
      forall i | 0 <= i < n
        ensures multiset(Values(ts[i])) <= multiset(Rows(ts))
      {
        assert ts[..n][i] == ts[i];
      }
    }
  }

  /** Collecting the drained workers' rows in Results order gives the reference summary. */
  lemma {:induction false} RowsCollect(ds: seq<Dto>, cs: seq<int>, b: Bucketing)
    ensures Rows(WorkerTables(ds, cs, b)) == Collect(ds, cs, b)
    decreases |cs|
  {
    if cs != [] {
      var n := |cs| - 1;
      var ts, ts' := WorkerTables(ds, cs, b), WorkerTables(ds, cs[..n], b);
      assert ts[..n] == ts';
      RowsCollect(ds, cs[..n], b);
    }
  }

  /** Every company's drained dictionary reaches the reference summary in full. */
  lemma CollectHoldsEveryCompany(ds: seq<Dto>, cs: seq<int>, b: Bucketing)
    ensures forall c :: c in cs ==> multiset(Values(Fold(Filter(ds, c), b))) <= multiset(Collect(ds, cs, b))
  {
    var ts := WorkerTables(ds, cs, b);
    RowsCollect(ds, cs, b);
    RowsHoldEveryWorker(ts);
    forall c | c in cs
      ensures multiset(Values(Fold(Filter(ds, c), b))) <= multiset(Collect(ds, cs, b))
    {
      var i :| 0 <= i < |cs| && cs[i] == c;
      assert ts[i] == Fold(Filter(ds, c), b);
    }
  }

  /** The rows GetSummarizedSalesDatasAsync returns for the ingested records `ds`, in month `nowMonth`. */
  function Summarize(ds: seq<Dto>, nowMonth: int): seq<Summary> {
    Collect(ds, Companies(ds), WorkerBucketing(nowMonth))
  }

  // Routing

  /** The companies met in a prefix of the records come first, in the same order. */
  lemma {:induction false} CompaniesPrefix(ds: seq<Dto>, k: nat)
    requires k <= |ds|
    ensures Companies(ds[..k]) <= Companies(ds)
    decreases |ds|
  {
    if k < |ds| {
      CompaniesPrefix(ds[..|ds| - 1], k);
      assert ds[..|ds| - 1][..k] == ds[..k];
    } else {
      assert ds[..k] == ds;
    }
  }

  /** A record of a new company opens a new queue after the existing ones; a known company opens none. */
  lemma CompaniesSnoc(ds: seq<Dto>, d: Dto)
    ensures Companies(ds + [d]) ==
      if d.companyId in Companies(ds) then Companies(ds) else Companies(ds) + [d.companyId]
  {
    assert (ds + [d])[..|ds|] == ds;
  }

  /** Each record reaches the queue of its own company, and the queue keeps arrival order. */
  lemma FilterSnoc(ds: seq<Dto>, d: Dto, c: int)
    ensures Filter(ds + [d], c) == if d.companyId == c then Filter(ds, c) + [d] else Filter(ds, c)
  {
    assert (ds + [d])[..|ds|] == ds;
  }

  /** A company with no record has an empty queue. */
  lemma {:induction false} FilterAbsent(ds: seq<Dto>, c: int)
    requires c !in CompanySet(ds)
    ensures Filter(ds, c) == []
    decreases |ds|
  {
    if ds != [] {
      var ds' := ds[..|ds| - 1];
      assert forall i :: 0 <= i < |ds'| ==> ds'[i] == ds[i];
      assert c !in CompanySet(ds');
      FilterAbsent(ds', c);
    }
  }

  // The router as a state machine

  /** The companies that have a queue, and each one's queue, in the order the queues were created. */
  datatype Routing = Routing(companies: seq<int>, queues: seq<seq<Dto>>)

  /** The position of a company that has a queue. */
  function IndexOf(cs: seq<int>, c: int): (k: nat)
    requires c in cs
    ensures k < |cs| && cs[k] == c
  {
    if cs[0] == c then 0 else 1 + IndexOf(cs[1..], c)
  }

  /** One iteration of the routing loop (lines 164-181): the record joins its company's queue, which is created if missing. */
  function RouteRecord(r: Routing, d: Dto): (r': Routing)
    requires |r.companies| == |r.queues|
    ensures |r'.companies| == |r'.queues|
  {
    var c := d.companyId;
    if c in r.companies then
      var k := IndexOf(r.companies, c);
      Routing(r.companies, r.queues[k := r.queues[k] + [d]])
    else
      Routing(r.companies + [c], r.queues + [[d]])
  }

  /** The routing after the loop has taken the records `ds`. */
  function RouteAll(ds: seq<Dto>): (r: Routing)
    ensures |r.companies| == |r.queues|
    decreases |ds|
  {
    if ds == [] then Routing([], []) else RouteRecord(RouteAll(ds[..|ds| - 1]), ds[|ds| - 1])
  }

  lemma RouteAllPrefix(ds: seq<Dto>, n: nat)
    requires n < |ds|
    ensures RouteAll(ds[..n + 1]) == RouteRecord(RouteAll(ds[..n]), ds[n])
  {
    assert ds[..n + 1][..n] == ds[..n];
  }

  /**
   * The router partitions the records: there is one queue per company, in
   * order of first appearance, and each holds exactly its company's records
   * in arrival order.
   */
  lemma {:induction false} RouteAllPartitions(ds: seq<Dto>)
    ensures RouteAll(ds).companies == Companies(ds)
    ensures forall i :: 0 <= i < |RouteAll(ds).queues| ==> RouteAll(ds).queues[i] == Filter(ds, RouteAll(ds).companies[i])
    decreases |ds|
  {
    if ds != [] {
      var prefix, d := ds[..|ds| - 1], ds[|ds| - 1];
      assert ds == prefix + [d];
      RouteAllPartitions(prefix);
      CompaniesSnoc(prefix, d);
      var before, after := RouteAll(prefix), RouteAll(ds);
      forall i | 0 <= i < |after.queues|
        ensures after.queues[i] == Filter(ds, after.companies[i])
      {
        FilterSnoc(prefix, d, after.companies[i]);
        if d.companyId in before.companies {
          var k := IndexOf(before.companies, d.companyId);
          if i != k {
            assert before.companies[i] != d.companyId;
          }
        } else if i == |before.queues| {
          FilterAbsent(prefix, d.companyId);
        }
      }
    }
  }

  /** Sum of a weight over the queues of companies `cs`. */
  function QueueSum(ds: seq<Dto>, cs: seq<int>, weight: Dto -> int): int
    decreases |cs|
  {
    if cs == [] then 0 else QueueSum(ds, cs[..|cs| - 1], weight) + SumOf(Filter(ds, cs[|cs| - 1]), weight)
  }

  lemma SumOfSnoc(ds: seq<Dto>, d: Dto, weight: Dto -> int)
    ensures SumOf(ds + [d], weight) == SumOf(ds, weight) + weight(d)
  {
    assert (ds + [d])[..|ds|] == ds;
  }

  /** Adding a record adds its weight to the queue sum exactly once when its company is listed, and not at all otherwise. */
  lemma {:induction false} QueueSumSnoc(ds: seq<Dto>, d: Dto, cs: seq<int>, weight: Dto -> int)
    requires Distinct(cs)
    ensures QueueSum(ds + [d], cs, weight) ==
      QueueSum(ds, cs, weight) + if d.companyId in cs then weight(d) else 0
    decreases |cs|
  {
    if cs != [] {
      var cs', c := cs[..|cs| - 1], cs[|cs| - 1];
      assert Distinct(cs');
      assert d.companyId in cs <==> d.companyId in cs' || d.companyId == c;
      assert d.companyId == c ==> d.companyId !in cs';
      QueueSumSnoc(ds, d, cs', weight);
      FilterSnoc(ds, d, c);
      SumOfSnoc(Filter(ds, c), d, weight);
    }
  }

  /** Routing loses and duplicates no record: summed over all companies, the queues hold every record once. */
  lemma {:induction false} RoutingPartitions(ds: seq<Dto>, cs: seq<int>, weight: Dto -> int)
    requires Distinct(cs)
    requires forall i :: 0 <= i < |ds| ==> ds[i].companyId in cs
    ensures QueueSum(ds, cs, weight) == SumOf(ds, weight)
    decreases |ds|
  {
    if ds == [] {
      QueueSumEmpty(cs, weight);
    } else {
      var ds', d := ds[..|ds| - 1], ds[|ds| - 1];
      RoutingPartitions(ds', cs, weight);
      assert ds' + [d] == ds;
      QueueSumSnoc(ds', d, cs, weight);
    }
  }

  lemma {:induction false} QueueSumEmpty(cs: seq<int>, weight: Dto -> int)
    ensures QueueSum([], cs, weight) == 0
    decreases |cs|
  {
    if cs != [] {
      QueueSumEmpty(cs[..|cs| - 1], weight);
    }
  }

  function One(d: Dto): int {
    1
  }

  // The output

  lemma TotalPriceAppend(rows1: seq<Summary>, rows2: seq<Summary>)
    ensures TotalPrice(rows1 + rows2) == TotalPrice(rows1) + TotalPrice(rows2)
    decreases |rows2|
  {
    if rows2 == [] {
      assert rows1 + rows2 == rows1;
    } else {
      var n := |rows2| - 1;
      var all := rows1 + rows2;
      TotalPriceAppend(rows1, rows2[..n]);
      assert all[..|all| - 1] == rows1 + rows2[..n];
      assert all[|all| - 1] == rows2[n];
    }
  }

  /** Number of distinct keys of each company's queue, summed over companies `cs`. */
  function KeyCount(ds: seq<Dto>, cs: seq<int>, b: Bucketing): nat
    decreases |cs|
  {
    if cs == [] then 0 else KeyCount(ds, cs[..|cs| - 1], b) + |KeySet(Filter(ds, cs[|cs| - 1]), b)|
  }

  /** There is one output row per company and key: keys are not shared across companies. */
  lemma {:induction false} CollectLength(ds: seq<Dto>, cs: seq<int>, b: Bucketing)
    ensures |Collect(ds, cs, b)| == KeyCount(ds, cs, b)
    decreases |cs|
  {
    if cs != [] {
      CollectLength(ds, cs[..|cs| - 1], b);
      FoldKeys(Filter(ds, cs[|cs| - 1]), b);
      ValuesOfTable(Fold(Filter(ds, cs[|cs| - 1]), b));
    }
  }

  /** The output carries the total price of the companies' queues. */
  lemma {:induction false} CollectTotalPrice(ds: seq<Dto>, cs: seq<int>, b: Bucketing)
    ensures TotalPrice(Collect(ds, cs, b)) == QueueSum(ds, cs, PriceOf)
    decreases |cs|
  {
    if cs != [] {
      var q := Filter(ds, cs[|cs| - 1]);
      CollectTotalPrice(ds, cs[..|cs| - 1], b);
      FoldTotalPrice(q, b);
      TotalPriceAppend(Collect(ds, cs[..|cs| - 1], b), Values(Fold(q, b)));
    }
  }

  /** The summarizer's output is worth exactly what its input is worth. */
  lemma SummarizeTotalPrice(ds: seq<Dto>, nowMonth: int)
    ensures TotalPrice(Summarize(ds, nowMonth)) == SumOf(ds, PriceOf)
  {
    var cs := Companies(ds);
    assert forall i :: 0 <= i < |ds| ==> ds[i].companyId in CompanySet(ds);
    CollectTotalPrice(ds, cs, WorkerBucketing(nowMonth));
    RoutingPartitions(ds, cs, PriceOf);
  }

  /** Every record is routed to exactly one worker. */
  lemma SummarizeRoutesEveryRecord(ds: seq<Dto>)
    ensures QueueSum(ds, Companies(ds), One) == |ds|
  {
    assert forall i :: 0 <= i < |ds| ==> ds[i].companyId in CompanySet(ds);
    RoutingPartitions(ds, Companies(ds), One);
    SumOfOne(ds);
  }

  lemma {:induction false} SumOfOne(ds: seq<Dto>)
    ensures SumOf(ds, One) == |ds|
    decreases |ds|
  {
    if ds != [] {
      SumOfOne(ds[..|ds| - 1]);
    }
  }

  /** The number of output rows is the number of distinct (company, key) pairs. */
  lemma SummarizeLength(ds: seq<Dto>, nowMonth: int)
    ensures |Summarize(ds, nowMonth)| == KeyCount(ds, Companies(ds), WorkerBucketing(nowMonth))
  {
    CollectLength(ds, Companies(ds), WorkerBucketing(nowMonth));
  }

  /** How the router splits two records: one queue when they share a company, two queues otherwise. */
  lemma RoutePair(d1: Dto, d2: Dto)
    ensures Companies([d1, d2]) ==
      if d1.companyId == d2.companyId then [d1.companyId] else [d1.companyId, d2.companyId]
    ensures forall c ::
      Filter([d1, d2], c) == (if d1.companyId == c then [d1] else []) + (if d2.companyId == c then [d2] else [])
  {
    assert [d1, d2][..1] == [d1] && [d1][..0] == [];
    assert Companies([d1]) == [d1.companyId];
    forall c | true
      ensures Filter([d1, d2], c) == (if d1.companyId == c then [d1] else []) + (if d2.companyId == c then [d2] else [])
    {
      assert Filter([d1], c) == if d1.companyId == c then [d1] else [];
    }
  }

  lemma CollectOne(ds: seq<Dto>, c: int, b: Bucketing)
    ensures Collect(ds, [c], b) == Values(Fold(Filter(ds, c), b))
  {
    assert [c][..0] == [];
  }

  lemma CollectTwo(ds: seq<Dto>, c1: int, c2: int, b: Bucketing)
    ensures Collect(ds, [c1, c2], b) == Values(Fold(Filter(ds, c1), b)) + Values(Fold(Filter(ds, c2), b))
  {
    assert [c1, c2][..1] == [c1];
    CollectOne(ds, c1, b);
  }

  /** Records of two companies are summarized apart: each company gets its own row, whatever their keys. */
  lemma TwoCompanies(d1: Dto, d2: Dto, b: Bucketing)
    requires d1.companyId != d2.companyId
    ensures Collect([d1, d2], Companies([d1, d2]), b) == [Seed(d1, b.yearWeek(d1)), Seed(d2, b.yearWeek(d2))]
  {
    var ds, c1, c2 := [d1, d2], d1.companyId, d2.companyId;
    assert Companies(ds) == [c1, c2] && Filter(ds, c1) == [d1] && Filter(ds, c2) == [d2] by { RoutePair(d1, d2); }
    FoldOneRow(d1, b);
    FoldOneRow(d2, b);
    CollectTwo(ds, c1, c2, b);
  }

  /** Records of one company with one key are summarized into a single row. */
  lemma OneCompanySameKey(d1: Dto, d2: Dto, b: Bucketing)
    requires d1.companyId == d2.companyId
    requires b.key(d1) == b.key(d2)
    ensures Collect([d1, d2], Companies([d1, d2]), b) == [Accumulate(Seed(d1, b.yearWeek(d1)), d2)]
  {
    var ds, c := [d1, d2], d1.companyId;
    assert Companies(ds) == [c] && Filter(ds, c) == ds by { RoutePair(d1, d2); }
    CollectOne(ds, c, b);
    FoldTwoSameKey(d1, d2, b);
  }

  /** Two records with the same key but different companies give two rows, one per company, in input order. */
  lemma SameKeyTwoCompanies(d1: Dto, d2: Dto, nowMonth: int)
    requires d1.companyId != d2.companyId
    ensures Summarize([d1, d2], nowMonth) ==
      [Seed(d1, YearWeek(d1.salesDate, nowMonth)), Seed(d2, YearWeek(d2.salesDate, nowMonth))]
  {
    TwoCompanies(d1, d2, WorkerBucketing(nowMonth));
  }

  /** Two records of one company with the same key give one row holding both prices and both volumes. */
  lemma SameKeyOneCompany(d1: Dto, d2: Dto, nowMonth: int)
    requires d1.companyId == d2.companyId
    requires KeyOf(d1, nowMonth) == KeyOf(d2, nowMonth)
    ensures var rows := Summarize([d1, d2], nowMonth);
      && |rows| == 1
      && SameGroupFields(rows[0], Seed(d1, YearWeek(d1.salesDate, nowMonth)))
      && rows[0].totalPrice == d1.price + d2.price
      && rows[0].totalVolume == d1.volume + d2.volume
  {
    var b := WorkerBucketing(nowMonth);
    assert b.key(d1) == b.key(d2);
    OneCompanySameKey(d1, d2, b);
  }
}
