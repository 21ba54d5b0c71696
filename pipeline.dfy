/**
 * The summarizer's objects with the state they update: the record queues
 * (BlockingCollection<DtoSalesData>), the per-company workers
 * (SubProcessForBrandId) and SummarizeSalesData itself. The producer, the
 * router and the workers run one after another here: ingestion completes
 * the input queue, the router drains it and completes every company queue,
 * then each worker drains its own queue, then the results are collected.
 */
module Pipeline {
  import opened Calendar
  import opened SalesTypes
  import opened SummaryKeys
  import opened Aggregation
  import opened Partitioning

  /** A BlockingCollection<DtoSalesData> as the program uses it: first in, first out, closed by CompleteAdding. */
  class SalesQueue {
    var items: seq<Dto>
    var addingCompleted: bool
    var disposed: bool

    constructor ()
      ensures items == [] && !addingCompleted && !disposed
    {
      items := [];
      addingCompleted := false;
      disposed := false;
    }

    /** Add: the record goes to the back; adding to a completed or disposed collection is refused. */
    method Add(d: Dto)
      requires !addingCompleted && !disposed
      modifies this
      ensures items == old(items) + [d]
      ensures addingCompleted == old(addingCompleted) && disposed == old(disposed)
    {
      items := items + [d];
    }

    method CompleteAdding()
      modifies this
      ensures addingCompleted
      ensures items == old(items) && disposed == old(disposed)
    {
      addingCompleted := true;
    }

    /** One step of GetConsumingEnumerable: the record at the front leaves the queue. */
    method Take() returns (d: Dto)
      requires items != []
      modifies this
      ensures d == old(items)[0] && items == old(items)[1..]
      ensures addingCompleted == old(addingCompleted) && disposed == old(disposed)
    {
      d := items[0];
      items := items[1..];
    }

    method Dispose()
      modifies this
      ensures disposed
      ensures items == old(items) && addingCompleted == old(addingCompleted)
    {
      disposed := true;
    }
  }

  /** SubProcessForBrandId (lines 221-316): drains one company's queue into its dictionary. */
  class Worker {
    const salesQuery: SalesQueue
    /** The dictionary Results: its entries, and the order in which it enumerates them. */
    var entries: map<string, Summary>
    var order: seq<string>
    var disposed: bool

    function Dictionary(): Table
      reads this
    {
      Table(entries, order)
    }

    /** The property Result (line 229): the dictionary's values. */
    function Result(): seq<Summary>
      reads this
    {
      Values(Dictionary())
    }

    constructor (salesQuery: SalesQueue)
      ensures this.salesQuery == salesQuery
      ensures Dictionary() == EmptyTable && !disposed
    {
      this.salesQuery := salesQuery;
      entries := map[];
      order := [];
      disposed := false;
    }

    /**
     * Run (lines 259-293): each record taken from the queue either adds its
     * price and volume to the entry with its key or inserts a new entry
     * seeded from it. The loop ends when the completed queue is empty.
     */
    method Run(nowMonth: int)
      requires salesQuery.addingCompleted
      modifies this, salesQuery
      ensures salesQuery.items == []
      ensures salesQuery.addingCompleted && salesQuery.disposed == old(salesQuery.disposed)
      ensures disposed == old(disposed)
      ensures Dictionary() == Aggregate(old(Dictionary()), old(salesQuery.items), WorkerBucketing(nowMonth))
    {
      ghost var b := WorkerBucketing(nowMonth);
      ghost var start, input := Table(entries, order), salesQuery.items;
      ghost var n := 0;
      while salesQuery.items != []
        invariant 0 <= n <= |input| && salesQuery.items == input[n..]
        invariant Table(entries, order) == Aggregate(start, input[..n], b)
        invariant salesQuery.addingCompleted && salesQuery.disposed == old(salesQuery.disposed)
        invariant disposed == old(disposed)
        decreases |salesQuery.items|
      {
        var salesData := salesQuery.Take();
        assert salesData == input[n] && salesQuery.items == input[n + 1..];
        Accept(salesData, nowMonth);
        AggregatePrefix(start, input, n, b);
        n := n + 1;
      }
      assert input[..n] == input;
    }

    /**
     * One pass of the loop of lines 264-289 for `salesData`: its key is
     * looked up; a hit adds the record to that entry, a miss inserts a new
     * entry seeded from the record.
     */
    method Accept(salesData: Dto, nowMonth: int)
      modifies this
      ensures Table(entries, order) == Step(old(Table(entries, order)), salesData, WorkerBucketing(nowMonth))
      ensures disposed == old(disposed)
    {
      var yearWeek := YearWeek(salesData.salesDate, nowMonth);
      var key := SummaryKey(salesData, yearWeek);
      if key in entries {
        entries := entries[key := Accumulate(entries[key], salesData)];
      } else {
        entries, order := entries[key := Seed(salesData, yearWeek)], order + [key];
      }
    }

    /** Dispose (lines 298-312): the first call disposes the queue and clears the dictionary; later calls do nothing. */
    method Dispose()
      modifies this, salesQuery
      ensures disposed
      ensures old(disposed) ==> Dictionary() == old(Dictionary()) && salesQuery.disposed == old(salesQuery.disposed)
      ensures !old(disposed) ==> Dictionary() == EmptyTable && salesQuery.disposed
      ensures salesQuery.items == old(salesQuery.items) && salesQuery.addingCompleted == old(salesQuery.addingCompleted)
    {
      if !disposed {
        salesQuery.Dispose();
        entries := map[];
        order := [];
        disposed := true;
      }
    }
  }

  /** Every queue still accepts records. */
  ghost predicate OpenQueues(qs: seq<SalesQueue>)
    reads qs
  {
    forall i :: 0 <= i < |qs| ==> !qs[i].addingCompleted && !qs[i].disposed
  }

  /** Every queue is completed and none is disposed. */
  ghost predicate ClosedQueues(qs: seq<SalesQueue>)
    reads qs
  {
    forall i :: 0 <= i < |qs| ==> qs[i].addingCompleted && !qs[i].disposed
  }

  /** Every worker has an empty dictionary and is not disposed. */
  ghost predicate IdleWorkers(ws: seq<Worker>)
    reads ws
  {
    forall i :: 0 <= i < |ws| ==> ws[i].Dictionary() == EmptyTable && !ws[i].disposed
  }

  /** A worker that has not run yet, over its completed queue holding `ds`. */
  ghost predicate Ready(w: Worker, q: SalesQueue, ds: seq<Dto>)
    reads w, q
  {
    w.salesQuery == q && w.Dictionary() == EmptyTable && !w.disposed && q.items == ds && q.addingCompleted && !q.disposed
  }

  /** A worker that has drained its queue, which held `ds`, into its dictionary. */
  ghost predicate Drained(w: Worker, q: SalesQueue, ds: seq<Dto>, b: Bucketing)
    reads w, q
  {
    w.salesQuery == q && w.Dictionary() == Fold(ds, b) && !w.disposed && q.items == [] && q.addingCompleted && !q.disposed
  }

  lemma OpenSnoc(qs: seq<SalesQueue>, q: SalesQueue)
    requires OpenQueues(qs) && !q.addingCompleted && !q.disposed
    ensures OpenQueues(qs + [q])
  {
    assert forall i :: 0 <= i < |qs| ==> (qs + [q])[i] == qs[i];
  }

  lemma IdleSnoc(ws: seq<Worker>, w: Worker)
    requires IdleWorkers(ws) && w.Dictionary() == EmptyTable && !w.disposed
    ensures IdleWorkers(ws + [w])
  {
    assert forall i :: 0 <= i < |ws| ==> (ws + [w])[i] == ws[i];
  }

  /**
   * ProcessSalesDataQuery and Results agree: worker i serves company
   * companies[i] over queue queues[i], which is registered under that
   * company; `slot` gives each queue its position, so no two workers share
   * a queue, and none of them is ReadedSales.
   */
  ghost predicate Consistent(query: map<int, SalesQueue>, workers: seq<Worker>, companies: seq<int>,
                             queues: seq<SalesQueue>, slot: map<SalesQueue, int>, readedSales: SalesQueue?)
  {
    && |workers| == |companies| == |queues|
    && (forall i :: 0 <= i < |workers| ==> workers[i].salesQuery == queues[i])
    && (forall c :: c in query <==> c in companies)
    && (forall i :: 0 <= i < |companies| ==> companies[i] in query && query[companies[i]] == queues[i])
    && (forall q :: q in query.Values ==> q in queues)
    && (forall i :: 0 <= i < |queues| ==> queues[i] in slot && slot[queues[i]] == i)
    && readedSales !in queues
  }

  /** Opening a queue for a company that has none keeps the bookkeeping consistent. */
  lemma RegisterCompany(query: map<int, SalesQueue>, workers: seq<Worker>, companies: seq<int>,
                        queues: seq<SalesQueue>, slot: map<SalesQueue, int>, readedSales: SalesQueue?,
                        c: int, col: SalesQueue, w: Worker)
    requires Consistent(query, workers, companies, queues, slot, readedSales)
    requires c !in companies && col !in queues && col != readedSales && w.salesQuery == col
    ensures Consistent(query[c := col], workers + [w], companies + [c], queues + [col], slot[col := |queues|], readedSales)
  {
    var companies', queues' := companies + [c], queues + [col];
    forall i | 0 <= i < |companies'|
      ensures companies'[i] in query[c := col] && query[c := col][companies'[i]] == queues'[i]
    {
      if i < |companies| {
        assert companies'[i] == companies[i] != c;
      }
    }
    forall i | 0 <= i < |queues'|
      ensures queues'[i] in slot[col := |queues|] && slot[col := |queues|][queues'[i]] == i
    {
      if i < |queues| {
        assert queues'[i] == queues[i] != col;
      }
    }
  }

  /** The queues registered in ProcessSalesDataQuery are exactly the queues of the workers. */
  lemma ConsistentValues(query: map<int, SalesQueue>, workers: seq<Worker>, companies: seq<int>,
                         queues: seq<SalesQueue>, slot: map<SalesQueue, int>, readedSales: SalesQueue?)
    requires Consistent(query, workers, companies, queues, slot, readedSales)
    ensures forall q :: q in query.Values ==> q in queues
    ensures forall i :: 0 <= i < |queues| ==> queues[i] in query.Values
  {
    forall i | 0 <= i < |queues|
      ensures queues[i] in query.Values
    {
      assert query[companies[i]] == queues[i];
    }
  }

  /** No two workers share a queue, so no two workers are the same object. */
  lemma ConsistentDistinct(query: map<int, SalesQueue>, workers: seq<Worker>, companies: seq<int>,
                           queues: seq<SalesQueue>, slot: map<SalesQueue, int>, readedSales: SalesQueue?)
    requires Consistent(query, workers, companies, queues, slot, readedSales)
    ensures forall i, j :: 0 <= i < |queues| && 0 <= j < |queues| && i != j ==>
      queues[i] != queues[j] && workers[i] != workers[j]
  {
    forall i, j | 0 <= i < |queues| && 0 <= j < |queues| && i != j
      ensures queues[i] != queues[j] && workers[i] != workers[j]
    {
      assert slot[queues[i]] == i && slot[queues[j]] == j;
      assert workers[i].salesQuery == queues[i] && workers[j].salesQuery == queues[j];
    }
  }

  method OpenCompany(salesData: Dto) returns (col: SalesQueue, process: Worker)
    ensures fresh(col) && fresh(process)
    ensures col.items == [salesData] && !col.addingCompleted && !col.disposed
    ensures process.salesQuery == col && process.Dictionary() == EmptyTable && !process.disposed
  {
    col := new SalesQueue();
    col.Add(salesData);
    process := new Worker(col);
  }

  /**
   * Lines 93 and 97-111: a new collection, and a copy of each input record
   * added to its back in input order.
   */
  method IngestAll(items: seq<SalesData>) returns (sales: SalesQueue)
    ensures fresh(sales)
    ensures sales.items == Ingest(items) && !sales.addingCompleted && !sales.disposed
  {
    sales := new SalesQueue();
    var i := 0;
    while i < |items|
      invariant 0 <= i <= |items|
      invariant sales.items == Ingest(items[..i]) && !sales.addingCompleted && !sales.disposed
    {
      sales.Add(ToDto(items[i]));
      IngestPrefix(items, i);
      i := i + 1;
    }
    assert items[..i] == items;
  }

  /** Each worker runs over its own queue, one after another; no two of them share a queue. */
  method RunAll(workers: seq<Worker>, ghost qs: seq<SalesQueue>, ghost parts: seq<seq<Dto>>, nowMonth: int)
    requires |workers| == |qs| == |parts|
    requires forall i, j :: 0 <= i < |qs| && 0 <= j < |qs| && i != j ==> qs[i] != qs[j] && workers[i] != workers[j]
    requires forall i :: 0 <= i < |workers| ==> Ready(workers[i], qs[i], parts[i])
    modifies workers, qs
    ensures forall i :: 0 <= i < |workers| ==> Drained(workers[i], qs[i], parts[i], WorkerBucketing(nowMonth))
  {
    ghost var b := WorkerBucketing(nowMonth);
    var k := 0;
    while k < |workers|
      invariant 0 <= k <= |workers|
      invariant forall i :: 0 <= i < k ==> Drained(workers[i], qs[i], parts[i], b)
      invariant forall i :: k <= i < |workers| ==> Ready(workers[i], qs[i], parts[i])
    {
      workers[k].Run(nowMonth);
      k := k + 1;
    }
  }

  /** The loop of lines 130-135: Dispose on each worker in turn; no two of them share a queue. */
  method DisposeAll(workers: seq<Worker>, ghost qs: seq<SalesQueue>)
    requires |workers| == |qs|
    requires forall i :: 0 <= i < |workers| ==> workers[i].salesQuery == qs[i]
    requires forall i, j :: 0 <= i < |qs| && 0 <= j < |qs| && i != j ==> qs[i] != qs[j] && workers[i] != workers[j]
    modifies workers, qs
    ensures forall i :: 0 <= i < |workers| ==> workers[i].disposed
    ensures forall i :: 0 <= i < |workers| && !old(workers[i].disposed) ==>
      workers[i].Dictionary() == EmptyTable && qs[i].disposed
    ensures forall i :: 0 <= i < |workers| && old(workers[i].disposed) ==>
      workers[i].Dictionary() == old(workers[i].Dictionary()) && qs[i].disposed == old(qs[i].disposed)
  {
    var k := 0;
    while k < |workers|
      invariant 0 <= k <= |workers|
      invariant forall i :: 0 <= i < k ==> workers[i].disposed
      invariant forall i :: 0 <= i < k && !old(workers[i].disposed) ==>
        workers[i].Dictionary() == EmptyTable && qs[i].disposed
      invariant forall i :: 0 <= i < k && old(workers[i].disposed) ==>
        workers[i].Dictionary() == old(workers[i].Dictionary()) && qs[i].disposed == old(qs[i].disposed)
      invariant forall i :: k <= i < |workers| ==> unchanged(workers[i], qs[i])
    {
      workers[k].Dispose();
      k := k + 1;
    }
  }

  /** The nested loops of lines 197-207: every row of every worker, worker after worker. */
  method CollectRows(workers: seq<Worker>, ghost ts: seq<Table>) returns (rows: seq<Summary>)
    requires |ts| == |workers| && forall i :: 0 <= i < |workers| ==> workers[i].Dictionary() == ts[i]
    ensures rows == Rows(ts)
  {
    rows := [];
    var i := 0;
    while i < |workers|
      invariant 0 <= i <= |workers| && rows == Rows(ts[..i])
    {
      var data := workers[i].Result();
      var j := 0;
      while j < |data|
        invariant 0 <= j <= |data| && rows == Rows(ts[..i]) + data[..j]
      {
        rows := rows + [data[j]];
        j := j + 1;
      }
      assert data[..j] == data;
      RowsPrefix(ts, i);
      i := i + 1;
    }
    assert ts[..i] == ts;
  }

  /**
   * SummarizeSalesData (lines 53-362, less the classes nested in it). A property the program leaves null
   * until it is first assigned is the empty map or the empty list here,
   * except ReadedSales, which stays nullable.
   */
  class Summarizer {
    var readedSales: SalesQueue?
    var processSalesDataQuery: map<int, SalesQueue>
    var results: seq<Worker>
    var disposed: bool
    /** The records the router has taken from ReadedSales. */
    ghost var routed: seq<Dto>
    /** The companies the router has opened a queue for, and the queue of each, in order. */
    ghost var companies: seq<int>
    ghost var queues: seq<SalesQueue>
    /** The position of each worker's queue in `queues`; it shows that no two workers share a queue. */
    ghost var slot: map<SalesQueue, int>

    constructor ()
      ensures readedSales == null && processSalesDataQuery == map[] && results == [] && !disposed
      ensures routed == [] && companies == [] && queues == [] && slot == map[] && Registry()
    {
      readedSales := null;
      processSalesDataQuery := map[];
      results := [];
      disposed := false;
      routed := [];
      companies := [];
      queues := [];
      slot := map[];
    }

    /** The router's bookkeeping is consistent; see Consistent. */
    ghost predicate Registry()
      reads this
    {
      Consistent(processSalesDataQuery, results, companies, queues, slot, readedSales)
    }

    /** The router's companies are `r.companies`, and queue i holds `r.queues[i]`. */
    ghost predicate Holds(r: Routing)
      reads this, queues
    {
      companies == r.companies && |queues| == |r.queues| && forall i :: 0 <= i < |queues| ==> queues[i].items == r.queues[i]
    }

    /**
     * After the router: one worker per company in order of first
     * appearance, registered under its company, whose queue holds that
     * company's records in arrival order.
     */
    ghost predicate Routes()
      reads this, queues
    {
      && Registry()
      && companies == Companies(routed)
      && forall i :: 0 <= i < |queues| ==> queues[i].items == Filter(routed, companies[i])
    }

    method Register(c: int, col: SalesQueue, process: Worker, ghost r: Routing)
      requires Registry() && OpenQueues(queues) && IdleWorkers(results) && Holds(r)
      requires c !in processSalesDataQuery && col !in queues && col != readedSales && process.salesQuery == col
      requires !col.addingCompleted && !col.disposed && process.Dictionary() == EmptyTable && !process.disposed
      modifies this
      ensures Registry() && OpenQueues(queues) && IdleWorkers(results)
      ensures companies == old(companies) + [c] && queues == old(queues) + [col] && results == old(results) + [process]
      ensures Holds(Routing(r.companies + [c], r.queues + [col.items]))
      ensures readedSales == old(readedSales) && disposed == old(disposed) && routed == old(routed)
    {
      ghost var query0, results0, companies0, queues0, slot0 := processSalesDataQuery, results, companies, queues, slot;
      processSalesDataQuery, results, companies, queues, slot := processSalesDataQuery[c := col], results + [process], companies + [c], queues + [col], slot[col := |queues|];
      RegisterCompany(query0, results0, companies0, queues0, slot0, readedSales, c, col, process);
      OpenSnoc(queues0, col);
      IdleSnoc(results0, process);
    }

    /**
     * One pass of the routing loop (lines 164-181) for `salesData`: a known
     * company's queue gets the record at its back; an unknown company gets
     * a new queue holding the record, registered under the company, and a
     * new worker over it at the end of Results.
     */
    method Route(salesData: Dto, ghost r: Routing)
      requires Registry() && OpenQueues(queues) && IdleWorkers(results) && Holds(r) && |r.companies| == |r.queues|
      modifies this, queues
      ensures Registry() && OpenQueues(queues) && IdleWorkers(results)
      ensures Holds(RouteRecord(r, salesData))
      ensures readedSales == old(readedSales) && disposed == old(disposed) && routed == old(routed)
      ensures old(results) <= results && old(queues) <= queues
      ensures forall i :: |old(results)| <= i < |results| ==> fresh(results[i]) && fresh(queues[i])
    {
      var c := salesData.companyId;
      if c in processSalesDataQuery {
        ghost var k := IndexOf(companies, c);
        var collection := processSalesDataQuery[c];
        assert collection == queues[k];
        collection.Add(salesData);
      } else {
        var col, process := OpenCompany(salesData);
        Register(c, col, process, r);
      }
    }

    /** The loop of lines 184-185: CompleteAdding on every queue of ProcessSalesDataQuery; nothing else changes. */
    method CompleteQueues()
      requires forall q :: q in processSalesDataQuery.Values ==> q in queues
      requires forall i :: 0 <= i < |queues| ==> queues[i] in processSalesDataQuery.Values
      modifies queues
      ensures forall i :: 0 <= i < |queues| ==> queues[i].addingCompleted
      ensures forall i :: 0 <= i < |queues| ==>
        queues[i].items == old(queues[i].items) && queues[i].disposed == old(queues[i].disposed)
    {
      var pending := processSalesDataQuery.Values;
      while pending != {}
        invariant forall q :: q in pending ==> q in queues
        invariant forall i :: 0 <= i < |queues| ==>
          queues[i].items == old(queues[i].items) && queues[i].disposed == old(queues[i].disposed)
        invariant forall i :: 0 <= i < |queues| && queues[i] !in pending ==> queues[i].addingCompleted
        decreases |pending|
      {
        var item :| item in pending;
        item.CompleteAdding();
        pending := pending - {item};
      }
    }

    /**
     * The routing loop of lines 160-183: ReadedSales is drained, each of its
     * records routed in turn, starting from an empty ProcessSalesDataQuery.
     */
    method RouteAllRecords()
      requires readedSales != null && readedSales.addingCompleted && results == []
      modifies this, readedSales
      ensures readedSales == old(readedSales) && readedSales.items == []
      ensures readedSales.addingCompleted && readedSales.disposed == old(readedSales.disposed)
      ensures disposed == old(disposed) && routed == old(readedSales.items)
      ensures Registry() && OpenQueues(queues) && IdleWorkers(results)
      ensures Holds(RouteAll(routed))
      ensures forall i :: 0 <= i < |results| ==> fresh(results[i]) && fresh(queues[i])
    {
      var sales: SalesQueue := readedSales;
      ghost var input := sales.items;
      processSalesDataQuery := map[];
      companies, queues, slot, routed := [], [], map[], input;
      var n := 0;
      assert input[..0] == [];
      while sales.items != []
        invariant readedSales == sales && 0 <= n <= |input| && sales.items == input[n..]
        invariant sales.addingCompleted && sales.disposed == old(sales.disposed)
        invariant disposed == old(disposed) && routed == input
        invariant Registry() && OpenQueues(queues) && IdleWorkers(results)
        invariant Holds(RouteAll(input[..n]))
        invariant forall i :: 0 <= i < |results| ==> fresh(results[i]) && fresh(queues[i])
        decreases |sales.items|
      {
        var salesData := sales.Take();
        assert salesData == input[n] && sales.items == input[n + 1..];
        Route(salesData, RouteAll(input[..n]));
        RouteAllPrefix(input, n);
        n := n + 1;
      }
      assert input[..n] == input;
    }

    /**
     * Run (lines 157-187): each record taken from ReadedSales goes to the
     * queue of its company, creating the queue and its worker on the
     * company's first record; when ReadedSales is drained every company
     * queue is completed.
     */
    method Run()
      requires readedSales != null && readedSales.addingCompleted && results == []
      modifies this, readedSales
      ensures readedSales == old(readedSales) && readedSales.items == []
      ensures readedSales.addingCompleted && readedSales.disposed == old(readedSales.disposed)
      ensures disposed == old(disposed)
      ensures routed == old(readedSales.items)
      ensures Routes() && ClosedQueues(queues) && IdleWorkers(results)
      ensures forall i :: 0 <= i < |results| ==> fresh(results[i]) && fresh(queues[i])
    {
      RouteAllRecords();
      RouteAllPartitions(routed);
      ConsistentValues(processSalesDataQuery, results, companies, queues, slot, readedSales);
      CompleteQueues();
    }

    /**
     * The workers started at line 178 as tasks attached to Run, which
     * line 114 awaits: each worker drains its completed queue into its
     * dictionary. Here they run one after another, in Results order.
     */
    method RunWorkers(nowMonth: int)
      requires Routes() && ClosedQueues(queues) && IdleWorkers(results)
      modifies results, queues
      ensures forall i :: 0 <= i < |results| ==>
        Drained(results[i], queues[i], Filter(routed, companies[i]), WorkerBucketing(nowMonth))
    {
      ConsistentDistinct(processSalesDataQuery, results, companies, queues, slot, readedSales);
      ghost var parts := Partitions(routed, companies);
      assert forall i :: 0 <= i < |results| ==> Ready(results[i], queues[i], parts[i]);
      RunAll(results, queues, parts, nowMonth);
    }

    /**
     * GetDatas (lines 194-212): the rows of each worker of Results in turn,
     * then Dispose when `autoDispose` is set.
     */
    method GetDatas(autoDispose: bool, ghost ts: seq<Table>) returns (rows: seq<Summary>)
      requires |ts| == |results| && forall i :: 0 <= i < |results| ==> results[i].Dictionary() == ts[i]
      requires Registry() && (disposed || readedSales != null)
      modifies this, readedSales, results, queues
      ensures rows == Rows(ts)
      ensures Registry() && (disposed || readedSales != null)
      ensures disposed == (old(disposed) || autoDispose)
      ensures autoDispose && !old(disposed) ==> readedSales == null && processSalesDataQuery == map[] && results == []
      ensures !autoDispose || old(disposed) ==> unchanged(this) && unchanged(results) && unchanged(queues)
      ensures (!autoDispose || old(disposed)) && readedSales != null ==> unchanged(readedSales)
      ensures !autoDispose || old(disposed) ==> forall i :: 0 <= i < |results| ==> results[i].Dictionary() == ts[i]
      ensures autoDispose && !old(disposed) ==> old(readedSales).disposed
      ensures autoDispose && !old(disposed) ==> forall i :: 0 <= i < |old(results)| ==> old(results)[i].disposed
      ensures autoDispose && !old(disposed) ==> forall i :: 0 <= i < |old(results)| && !old(results[i].disposed) ==>
        old(results)[i].Dictionary() == EmptyTable && old(results)[i].salesQuery.disposed
    {
      rows := CollectRows(results, ts);
      if autoDispose {
        Dispose();
      }
    }

    /**
     * Dispose (lines 122-148): the first call disposes ReadedSales and every
     * worker, and drops the queues, the workers and ReadedSales; later
     * calls do nothing.
     */
    method Dispose()
      requires disposed || readedSales != null
      requires Registry()
      modifies this, readedSales, results, queues
      ensures disposed && Registry()
      ensures old(disposed) ==> unchanged(this) && unchanged(results) && unchanged(queues)
      ensures old(disposed) && readedSales != null ==> unchanged(readedSales)
      ensures !old(disposed) ==> readedSales == null && processSalesDataQuery == map[] && results == []
      ensures !old(disposed) ==> old(readedSales).disposed
      ensures !old(disposed) ==> forall i :: 0 <= i < |old(results)| ==> old(results)[i].disposed
      ensures !old(disposed) ==> forall i :: 0 <= i < |old(results)| && !old(results[i].disposed) ==>
        old(results)[i].Dictionary() == EmptyTable && old(results)[i].salesQuery.disposed
    {
      if !disposed {
        var sales: SalesQueue := readedSales;
        sales.Dispose();
        ConsistentDistinct(processSalesDataQuery, results, companies, queues, slot, readedSales);
        DisposeAll(results, queues);
        processSalesDataQuery, results, readedSales, disposed := map[], [], null, true;
        companies, queues, slot := [], [], map[];
      }
    }

    /**
     * Lines 93-114 of GetSummarizedSalesDatasAsync: a copy of every input
     * record goes into a new ReadedSales, which is then completed; the
     * router runs, then the workers, each draining its company's queue.
     * `ts` are the workers' dictionaries, whose rows are the reference summary.
     */
    method Process(items: seq<SalesData>, nowMonth: int) returns (ghost ts: seq<Table>)
      modifies this
      ensures Registry() && readedSales != null && disposed == old(disposed)
      ensures |ts| == |results| && forall i :: 0 <= i < |results| ==> results[i].Dictionary() == ts[i]
      ensures Rows(ts) == Summarize(Ingest(items), nowMonth)
      ensures fresh(readedSales) && forall i :: 0 <= i < |results| ==> fresh(results[i]) && fresh(queues[i])
      ensures forall i :: 0 <= i < |results| ==> !results[i].disposed
    {
      var sales := IngestAll(items);
      readedSales, results := sales, [];
      sales.CompleteAdding();
      Run();
      assert companies == Companies(routed);
      RunWorkers(nowMonth);
      ts := WorkerTables(routed, companies, WorkerBucketing(nowMonth));
      RowsCollect(routed, companies, WorkerBucketing(nowMonth));
    }

    /**
     * GetSummarizedSalesDatasAsync (lines 90-117): Process, then GetDatas.
     * Unless the call disposed the summarizer, `ts` are the workers'
     * dictionaries afterwards, and a later Dispose may be called.
     */
    method GetSummarizedSalesDatas(items: seq<SalesData>, nowMonth: int, autoDispose: bool)
      returns (rows: seq<Summary>, ghost ts: seq<Table>)
      modifies this
      ensures rows == Summarize(Ingest(items), nowMonth)
      ensures Registry() && (disposed || readedSales != null)
      ensures disposed == (old(disposed) || autoDispose)
      ensures autoDispose && !old(disposed) ==> readedSales == null && processSalesDataQuery == map[] && results == []
      ensures !autoDispose || old(disposed) ==> readedSales != null && Rows(ts) == rows
      ensures !autoDispose || old(disposed) ==> |ts| == |results| && forall i :: 0 <= i < |results| ==> results[i].Dictionary() == ts[i]
      ensures readedSales != null ==> fresh(readedSales)
      ensures forall i :: 0 <= i < |results| ==> fresh(results[i])
      ensures forall i :: 0 <= i < |queues| ==> fresh(queues[i])
      ensures !autoDispose || old(disposed) ==> forall i :: 0 <= i < |results| ==> !results[i].disposed
    {
      ts := Process(items, nowMonth);
      rows := GetDatas(autoDispose, ts);
    }
  }

  /** Challenge1Solution (lines 28-31): a new summarizer, asked for its rows with the default autoDispose of false. */
  method SummarizeStream(items: seq<SalesData>, nowMonth: int) returns (rows: seq<Summary>)
    ensures rows == Summarize(Ingest(items), nowMonth)
  {
    var summarizer := new Summarizer();
    ghost var ts: seq<Table>;
    rows, ts := summarizer.GetSummarizedSalesDatas(items, nowMonth, false);
  }

  /**
   * The use SummarizeSalesData offers as an IDisposable (line 53): the rows
   * are read, and the summarizer is disposed afterwards, which releases
   * ReadedSales and every worker and leaves the rows already returned as
   * they were.
   */
  method SummarizeThenDispose(items: seq<SalesData>, nowMonth: int) returns (rows: seq<Summary>)
    ensures rows == Summarize(Ingest(items), nowMonth)
  {
    var summarizer := new Summarizer();
    ghost var ts: seq<Table>;
    rows, ts := summarizer.GetSummarizedSalesDatas(items, nowMonth, false);
    ghost var workers := summarizer.results;
    summarizer.Dispose();
    assert summarizer.disposed && summarizer.readedSales == null && summarizer.results == [];
    assert forall i :: 0 <= i < |workers| ==> workers[i].disposed && workers[i].Dictionary() == EmptyTable;
  }

  /**
   * A summarizer used again after Dispose: the new run builds fresh
   * collections and workers, and its own autoDispose finds Disposed already
   * set (lines 124-125), so the new workers keep the dictionaries whose
   * rows were returned.
   */
  method SummarizeAfterDispose(first: seq<SalesData>, second: seq<SalesData>, nowMonth: int)
    returns (rows: seq<Summary>)
    ensures rows == Summarize(Ingest(second), nowMonth)
  {
    var summarizer := new Summarizer();
    var rows0, ts0 := summarizer.GetSummarizedSalesDatas(first, nowMonth, false);
    summarizer.Dispose();
    ghost var ts;
    rows, ts := summarizer.GetSummarizedSalesDatas(second, nowMonth, true);
    assert summarizer.disposed && summarizer.readedSales != null && Rows(ts) == rows;
    assert |ts| == |summarizer.results|;
    assert forall i :: 0 <= i < |ts| ==>
      !summarizer.results[i].disposed && summarizer.results[i].Dictionary() == ts[i];
  }

  /**
   * GetSummarizedSalesDatasAsync with autoDispose set (lines 209-210): once
   * the rows are collected, ReadedSales and every worker are disposed and
   * every worker's dictionary is cleared.
   */
  method CollectThenDispose(items: seq<SalesData>, nowMonth: int) returns (rows: seq<Summary>)
    ensures rows == Summarize(Ingest(items), nowMonth)
  {
    var summarizer := new Summarizer();
    ghost var ts := summarizer.Process(items, nowMonth);
    var sales := summarizer.readedSales;
    ghost var workers := summarizer.results;
    rows := summarizer.GetDatas(true, ts);
    assert sales.disposed && summarizer.disposed && summarizer.results == [];
    assert forall i :: 0 <= i < |workers| ==> workers[i].disposed && workers[i].Dictionary() == EmptyTable;
  }
}
