# Sales summarizer: a Dafny model

`SummarizeSalesData` takes a stream of sales records and returns one
summary row per company and key string, where the key string joins brand,
product, store and year-week.

The pipeline works in four stages:

- **Ingestion.** Each record is copied into a `DtoSalesData` and added to a blocking collection, `ReadedSales`.
- **Routing.** A router task drains that collection into one queue per company. It creates a `SubProcessForBrandId` worker the first time it meets each company.
- **Aggregation.** Each worker folds its company's records into a dictionary keyed by the string `BrandId ++ ProductId ++ StoreId ++ yearWeek`. A hit adds price and volume to the entry; a miss inserts a new entry seeded from the record.
- **Collection.** `GetDatas` yields every worker's rows, worker after worker, and can then dispose the summarizer.

The model has six modules:

- `SalesTypes`: the record shapes and the copy made on ingestion.
- `Calendar`: proleptic Gregorian dates, and the week number that `Calendar.GetWeekOfYear` computes under the `FirstFullWeek` rule with Monday first. It also holds the year-week bucket `year * 100 + week`, including its "now is January" year correction.
- `SummaryKeys`: decimal `int.ToString` and the aggregation key.
- `Aggregation`: one worker's fold as a function on a `Table`, meaning a dictionary plus its enumeration order. It also holds reference definitions to prove the fold against: the key set, the per-key sums, and the first record for each key.
- `Partitioning`: ingestion, routing as a function on values (`Routing`), and `Summarize`, which is the whole program's output stated on values.
- `Pipeline`: the objects the program updates in place, as classes.
  - `SalesQueue` stands for `BlockingCollection<DtoSalesData>`.
  - `Worker` stands for `SubProcessForBrandId`. Its `Run` is a loop proved against `Aggregation.Aggregate`.
  - `Summarizer` stands for `SummarizeSalesData`. Its router loop is proved against `Partitioning.RouteAll`, and `GetSummarizedSalesDatas` is proved to return `Summarize(Ingest(items), nowMonth)`.

The program runs its stages as concurrent tasks. Here they run one after another:

1. ingestion;
2. the router, which ends by completing every company queue;
3. each worker, in `Results` order;
4. collection.

This sequential order is safe because each queue has exactly one writer (the router) and exactly one reader (its worker). `GetSummarizedSalesDatasAsync` waits for all of them (line 114) before it collects.

Two facts about the code that are easy to misread:

- **Key order.** The key concatenates brand, product, store and year-week in that order, with no separator (line 266).
- **Week rule.** The week is .NET's `FirstFullWeek` week with Monday as the first day, not the ISO 8601 week. For example, 2021-01-01 is in week 52 here (`Calendar.WeekExamplesBeforeFirstMonday`), while ISO 8601 puts it in week 53.

## Model

| member | source | states |
|---|---|---|
| Partitioning.Ingest | Challenge1_Yusuf_Akbas/Program.cs:97-111 | one copy per input record, in input order, with the same product, company, brand, store, date, price and volume |
| SalesTypes.ToDto | Challenge1_Yusuf_Akbas/Program.cs:100-109 | the copy of one record; `Partitioning.Ingest` states field by field that it keeps product, store, brand, company, date, price and volume |
| Pipeline.IngestAll | Challenge1_Yusuf_Akbas/Program.cs:93-111 | the new ReadedSales holds exactly `Ingest(items)` and is still open |
| Pipeline.SalesQueue.Add | Challenge1_Yusuf_Akbas/Program.cs:168 | the record goes to the back of the collection; nothing else changes |
| Pipeline.SalesQueue.Take | Challenge1_Yusuf_Akbas/Program.cs:162 | the consuming enumeration hands out the front record and removes it |
| Pipeline.SalesQueue.CompleteAdding | Challenge1_Yusuf_Akbas/Program.cs:185 | the collection is marked complete; its records are untouched |
| Pipeline.SalesQueue.Dispose | Challenge1_Yusuf_Akbas/Program.cs:304 | the collection is marked disposed; its records and completion are untouched |
| Pipeline.SalesQueue.constructor | Challenge1_Yusuf_Akbas/Program.cs:93 | a new collection is empty, open and not disposed, as `new()` makes ReadedSales and each company queue |
| Pipeline.Worker.constructor | Challenge1_Yusuf_Akbas/Program.cs:248-252 | a worker starts over its queue with an empty dictionary |
| Aggregation.WorkerKeyInjective | Challenge1_Yusuf_Akbas/Program.cs:265-266 | for five-character brand and store codes and years after 1000, the worker's key of two records agrees exactly when brand, product, store and week bucket agree, so its dictionary holds one entry per group |
| Aggregation.Step | Challenge1_Yusuf_Akbas/Program.cs:265-289 | a hit adds price and volume to the entry of the record's key and adds no entry; a miss adds exactly one entry, seeded from the record; other entries are untouched; the enumeration order stays well formed |
| Aggregation.Seed | Challenge1_Yusuf_Akbas/Program.cs:278-287 | the entry a miss inserts: store, brand, product and company from the record, week number from its bucket, price and volume as totals; `Aggregation.FoldOneRow` and `Aggregation.FoldSeed` state it of the dictionary |
| Aggregation.Accumulate | Challenge1_Yusuf_Akbas/Program.cs:271-272 | a hit adds the record's price and volume to the entry's totals and keeps its other fields; `Aggregation.FoldTotals` states the resulting sums |
| Aggregation.Aggregate | Challenge1_Yusuf_Akbas/Program.cs:262-291 | the worker's dictionary after its loop has taken the records in order from a given dictionary; `Pipeline.Worker.Run` is proved to end in it |
| Aggregation.Fold | Challenge1_Yusuf_Akbas/Program.cs:262-291 | that dictionary for a worker that starts empty; `Aggregation.FoldKeys`, `Aggregation.FoldTotals` and `Aggregation.FoldSeed` characterise it by keys, sums and first records |
| Pipeline.Worker.Accept | Challenge1_Yusuf_Akbas/Program.cs:264-289 | one loop pass changes the dictionary exactly as `Step` does |
| Pipeline.Worker.Run | Challenge1_Yusuf_Akbas/Program.cs:259-293 | the worker drains its completed queue, and its dictionary is the fold of the queue's records over the dictionary it started with |
| Aggregation.FoldKeys | Challenge1_Yusuf_Akbas/Program.cs:262-289 | a drained worker has one entry per distinct key among its records, each listed once in enumeration order |
| Aggregation.FoldTotals | Challenge1_Yusuf_Akbas/Program.cs:268-273 | each entry's total price and total volume are the sums over the records with its key; a key no record has sums to zero |
| Aggregation.FoldSeed | Challenge1_Yusuf_Akbas/Program.cs:275-287 | store, brand, product, company and week of an entry come from the first record with its key |
| Aggregation.FoldTotalPrice | Challenge1_Yusuf_Akbas/Program.cs:259-293 | the worker's rows together carry exactly the total price of its records |
| Aggregation.ValuesOfTable | Challenge1_Yusuf_Akbas/Program.cs:229 | `Result` yields one row per dictionary entry, in enumeration order |
| Pipeline.Worker.Result | Challenge1_Yusuf_Akbas/Program.cs:229 | the worker's rows are the dictionary's values in enumeration order; `Aggregation.ValuesOfTable` states one row per entry |
| Aggregation.FoldOneRow | Challenge1_Yusuf_Akbas/Program.cs:278-287 | one record gives one row seeded from it |
| Aggregation.FoldTwoSameKey | Challenge1_Yusuf_Akbas/Program.cs:268-273 | two records with one key give one row holding both prices and both volumes |
| Pipeline.Worker.Dispose | Challenge1_Yusuf_Akbas/Program.cs:298-312 | the first call disposes the queue and clears the dictionary; a later call changes nothing |
| Partitioning.Companies | Challenge1_Yusuf_Akbas/Program.cs:165-177 | the companies that have a queue are exactly the companies of the records, each once |
| Partitioning.Filter | Challenge1_Yusuf_Akbas/Program.cs:165-176 | a company's queue holds only records of that company and no more records than the input |
| Partitioning.CompaniesSnoc | Challenge1_Yusuf_Akbas/Program.cs:165-177 | a record of a new company appends that company to the queues; a known company appends none |
| Partitioning.CompaniesPrefix | Challenge1_Yusuf_Akbas/Program.cs:172-177 | queues are only ever appended: the companies of a prefix of the input come first, in the same order |
| Partitioning.FilterSnoc | Challenge1_Yusuf_Akbas/Program.cs:165-176 | a record reaches the back of its own company's queue and no other queue |
| Partitioning.FilterAbsent | Challenge1_Yusuf_Akbas/Program.cs:174 | a company with no record has an empty queue, so its first record is its queue's only element |
| Partitioning.RouteRecord | Challenge1_Yusuf_Akbas/Program.cs:164-181 | one pass of the routing loop: a known company's queue gets the record at its back; an unknown company gets a new queue holding it; companies and queues stay paired |
| Partitioning.RouteAll | Challenge1_Yusuf_Akbas/Program.cs:162-182 | the routing after the loop has taken the records in order; `Partitioning.RouteAllPartitions` shows it equals one `Filter` per company of `Companies` |
| Partitioning.RouteAllPartitions | Challenge1_Yusuf_Akbas/Program.cs:162-182 | the router's state machine opens one queue per company in order of first appearance, and each holds exactly its company's records in arrival order |
| Partitioning.RoutingPartitions | Challenge1_Yusuf_Akbas/Program.cs:162-182 | routing loses no record and duplicates none: any weight summed over the queues equals its sum over the input |
| Partitioning.SummarizeRoutesEveryRecord | Challenge1_Yusuf_Akbas/Program.cs:162-182 | the queues hold as many records as the input |
| Partitioning.RoutePair | Challenge1_Yusuf_Akbas/Program.cs:162-180 | two records share one queue when they share a company, and otherwise get two queues in input order |
| Pipeline.OpenCompany | Challenge1_Yusuf_Akbas/Program.cs:174-176 | a new open queue holding just the record, and a new idle worker over it |
| Pipeline.Summarizer.Register | Challenge1_Yusuf_Akbas/Program.cs:175-177 | the queue is registered under the company and its worker is appended to Results; the bookkeeping stays consistent |
| Pipeline.Summarizer.Route | Challenge1_Yusuf_Akbas/Program.cs:165-180 | one routing pass changes the queues exactly as `RouteRecord` does; a known company's queue gets the record at its back |
| Pipeline.Summarizer.RouteAllRecords | Challenge1_Yusuf_Akbas/Program.cs:160-182 | ReadedSales is drained, and the queues are those of `RouteAll` over its records |
| Pipeline.Summarizer.CompleteQueues | Challenge1_Yusuf_Akbas/Program.cs:184-185 | every registered queue is completed and keeps its records |
| Pipeline.Summarizer.Run | Challenge1_Yusuf_Akbas/Program.cs:157-187 | after the router there is one worker per company in first-appearance order, registered under its company; its queue holds that company's records in order and is completed |
| Pipeline.RunAll | Challenge1_Yusuf_Akbas/Program.cs:178 | every worker drains its own queue into the fold of that queue's records |
| Pipeline.Summarizer.RunWorkers | Challenge1_Yusuf_Akbas/Program.cs:176-178 | worker i ends with the fold of company i's records, and its queue is empty |
| Partitioning.Rows | Challenge1_Yusuf_Akbas/Program.cs:197-207 | the values of each worker's dictionary, worker after worker; `Partitioning.RowsHoldEveryWorker` and `Pipeline.CollectRows` characterise it |
| Partitioning.RowsHoldEveryWorker | Challenge1_Yusuf_Akbas/Program.cs:197-207 | every row of every worker is among the collected rows, as often as it occurs in that worker |
| Partitioning.Collect | Challenge1_Yusuf_Akbas/Program.cs:197-207 | the reference summary: the fold of each company's records, company after company; `Partitioning.RowsCollect` and `Partitioning.CollectLength` characterise it |
| Partitioning.CollectHoldsEveryCompany | Challenge1_Yusuf_Akbas/Program.cs:197-207 | every row of every company's fold is in the reference summary |
| Partitioning.RowsCollect | Challenge1_Yusuf_Akbas/Program.cs:197-207 | the drained workers' rows in Results order are the reference summary |
| Pipeline.CollectRows | Challenge1_Yusuf_Akbas/Program.cs:197-207 | the nested loops return every row of every worker, worker after worker |
| Pipeline.Summarizer.constructor | Challenge1_Yusuf_Akbas/Program.cs:30 | a new summarizer has no ReadedSales, no queues and no workers, and is not disposed (line 78) |
| Pipeline.Summarizer.GetDatas | Challenge1_Yusuf_Akbas/Program.cs:194-212 | the rows of all workers in order, then Dispose when asked; otherwise the summarizer is unchanged and may be disposed later |
| Pipeline.DisposeAll | Challenge1_Yusuf_Akbas/Program.cs:130-135 | every worker is disposed; each one not disposed before has an empty dictionary and a disposed queue |
| Pipeline.Summarizer.Dispose | Challenge1_Yusuf_Akbas/Program.cs:122-148 | the first call disposes ReadedSales and every worker and drops the queues, the workers and ReadedSales; a later call changes nothing |
| Pipeline.Summarizer.Process | Challenge1_Yusuf_Akbas/Program.cs:93-114 | after ingestion, routing and the workers, the workers' rows are the reference summary of the ingested input |
| Pipeline.Summarizer.GetSummarizedSalesDatas | Challenge1_Yusuf_Akbas/Program.cs:90-117 | returns exactly `Summarize(Ingest(items), nowMonth)`; disposed afterwards exactly when it was before or when asked; the bookkeeping stays consistent, so Dispose may follow; unless the call disposed the summarizer (autoDispose set on a summarizer not yet disposed), the fresh workers are not disposed and still hold the dictionaries whose rows were returned |
| Partitioning.Summarize | Challenge1_Yusuf_Akbas/Program.cs:90-117 | the reference output: the rows of each company in first-appearance order, each company's rows being the values of the fold of its records; the lemmas below state its length, totals and small cases |
| Pipeline.SummarizeStream | Challenge1_Yusuf_Akbas/Program.cs:28-31 | a new summarizer asked for its rows returns exactly `Summarize(Ingest(items), nowMonth)` |
| Pipeline.SummarizeThenDispose | Challenge1_Yusuf_Akbas/Program.cs:53 | after reading the rows a caller may dispose the summarizer, which disposes every worker and empties its dictionary; the rows are still `Summarize(Ingest(items), nowMonth)` |
| Pipeline.SummarizeAfterDispose | Challenge1_Yusuf_Akbas/Program.cs:122-126 | a summarizer used again after Dispose returns the summary of the new input, and with autoDispose set its new workers stay undisposed and hold the returned rows, because Dispose returns at once when already disposed |
| Pipeline.CollectThenDispose | Challenge1_Yusuf_Akbas/Program.cs:209-210 | with autoDispose set, the rows are `Summarize(Ingest(items), nowMonth)`, and afterwards ReadedSales and every worker are disposed and every dictionary is empty |
| Partitioning.CollectLength | Challenge1_Yusuf_Akbas/Program.cs:194-207 | the output has one row per company and distinct key of that company |
| Partitioning.SummarizeLength | Challenge1_Yusuf_Akbas/Program.cs:194-207 | the number of rows is the sum over companies of their numbers of distinct keys |
| Partitioning.SummarizeTotalPrice | Challenge1_Yusuf_Akbas/Program.cs:90-115 | the rows together carry exactly the total price of the input |
| Partitioning.TwoCompanies | Challenge1_Yusuf_Akbas/Program.cs:194-207 | records of two companies give two rows, one per company, in input order |
| Partitioning.SameKeyTwoCompanies | Challenge1_Yusuf_Akbas/Program.cs:266 | the key omits the company, so the same key in two companies still gives two rows |
| Partitioning.OneCompanySameKey | Challenge1_Yusuf_Akbas/Program.cs:265-273 | two records of one company with one key give one row holding both |
| Partitioning.SameKeyOneCompany | Challenge1_Yusuf_Akbas/Program.cs:265-273 | that row keeps the first record's fields and sums both prices and both volumes |
| Calendar.WeekOfYear | Challenge1_Yusuf_Akbas/Program.cs:350 | the week lies between 1 and 53 |
| Calendar.JanuaryOffset | Challenge1_Yusuf_Akbas/Program.cs:350 | the offset to the first Monday lies between 0 and 6, and is 0 in year 1 |
| Calendar.WeekFromFirstMonday | Challenge1_Yusuf_Akbas/Program.cs:350 | from the year's first Monday on, the week is the number of whole weeks since then plus one; a day before it has the week of December 31 of the year before |
| Calendar.WeekCountsMondays | Challenge1_Yusuf_Akbas/Program.cs:350 | the week of a date is the number of Mondays of its year up to it, or the previous year's number of Mondays when there is none yet |
| Calendar.WeekExamples | Challenge1_Yusuf_Akbas/Program.cs:350 | 2024-03-04 is in week 10 and 2024-12-31 in week 53 |
| Calendar.WeekExamplesBeforeFirstMonday | Challenge1_Yusuf_Akbas/Program.cs:350 | 2021-01-01 is in week 52 (of 2020) and 2021-01-04 in week 1 |
| Calendar.YearWeek | Challenge1_Yusuf_Akbas/Program.cs:351-353 | the bucket decodes back into its week (`% 100`) and its year (`/ 100`) |
| Calendar.BucketYear | Challenge1_Yusuf_Akbas/Program.cs:351 | the bucket year is the record's year or the year before, and the record's year when "now" is not in January |
| Calendar.BucketYearOutsideJanuary | Challenge1_Yusuf_Akbas/Program.cs:351 | outside January the bucket carries the record's own year |
| Calendar.DecemberSeenInJanuary | Challenge1_Yusuf_Akbas/Program.cs:351 | when "now" is in January, every December date is put one year before its own year |
| Calendar.JanuaryCorrectionExamples | Challenge1_Yusuf_Akbas/Program.cs:351 | seen in January, 2021-01-01 shares bucket 202052 with 2020-12-31; seen in March, it is 202152 |
| Calendar.JanuaryCorrectionMovesLateJanuary | Challenge1_Yusuf_Akbas/Program.cs:351 | seen in January, 2024-01-29 shares bucket 202305 with 2023-01-30 |
| SummaryKeys.IntToStringRoundTrip | Challenge1_Yusuf_Akbas/Program.cs:266 | the decimal text of an integer parses back to it |
| SummaryKeys.IntToStringInjective | Challenge1_Yusuf_Akbas/Program.cs:266 | two integers have the same text exactly when they are equal |
| SummaryKeys.SummaryKey | Challenge1_Yusuf_Akbas/Program.cs:266 | brand, product text, store and year-week text concatenated; `SummaryKeys.SummaryKeyInjective` and `SummaryKeys.KeyCollision` state when it identifies a group |
| SummaryKeys.KeyOf | Challenge1_Yusuf_Akbas/Program.cs:265-266 | the key a worker computes for a record at month `nowMonth`; `SummaryKeys.KeyOfInjective` states when it identifies a group |
| SummaryKeys.KeyCollision | Challenge1_Yusuf_Akbas/Program.cs:266 | without separators, two different (product, store) groups can share a key |
| SummaryKeys.SummaryKeyInjective | Challenge1_Yusuf_Akbas/Program.cs:266 | with brand codes of one length, store codes of one length and year-weeks of one width, the key determines brand, product, store and year-week |
| SummaryKeys.YearWeekWidth | Challenge1_Yusuf_Akbas/Program.cs:352 | for years after 1000 the bucket prints as six digits |
| SummaryKeys.KeyOfInjective | Challenge1_Yusuf_Akbas/Program.cs:265-266 | for five-character codes and years after 1000, two records share a key exactly when they agree on brand, product, store and bucket |

## Left out

- Threads and tasks are not modelled: `Task.Factory.StartNew`, `LongRunning`, `AttachedToParent` and the `await` of line 114. The program starts each worker when its queue is created (line 178); here the workers run after the router has finished, in `Results` order. A worker's result does not depend on when it runs, because its queue has one writer and one reader.
- Blocking behaviour of `BlockingCollection` is not modelled. Taking from an empty collection that is not yet complete would wait in the program. Here the queues are complete before anyone takes from them.
- Pipeline.Summarizer.GetDatas: the program's `yield return` iterator is lazy, and its Dispose happens when the enumeration finishes. Here the rows are collected eagerly and Dispose follows at once.
- Pipeline.Worker.Accept: a hit updates the `SummarizedSalesData` object in place. Here the map entry is replaced by an updated value. No one else refers to that object, so nothing observable differs.
- The `Dictionary` enumeration order is modelled as the order of first insertion. That is what .NET's dictionary does while no entry is removed, and the worker never removes one. .NET does not document this order.
- `DateTime.Parse` of the SalesDate text is not modelled. Records carry an already-valid date (year, month, day), from year 1 to 9999.
- `DateTime.Now` is replaced by a `nowMonth` parameter. The model uses one value of `nowMonth` for the whole run, whereas the program reads the clock once per record.
- `CultureInfo.InvariantCulture.Calendar.GetWeekOfYear` is modelled by its documented rule (`FirstFullWeek`, Monday first) on proleptic Gregorian dates. .NET's own source is not part of this model.
- Price (`decimal`) is an integer number of smallest units. Volume (`double`) is a real with exact addition. `decimal` overflow and `double` rounding are not modelled.
- `ReadOnlyMemory<char>` and its `ToString` are plain strings. `OtherData`, `Id` and the name fields are not copied by the program; `Id` and the names are kept only in `SalesData`.
- A property the program leaves null until first assigned (`ProcessSalesDataQuery`, `Results`) starts as an empty map or list here, and the first Dispose resets it to an empty map or list where the program sets it back to null (lines 139-140). `ReadedSales` is nullable in the model, as in the program, and Dispose sets it to null (line 141).
- Pipeline.Summarizer.Dispose requires that the summarizer was already disposed or that ReadedSales exists. In the program, disposing before `GetSummarizedSalesDatasAsync` has run throws a `NullReferenceException`, and the model does not reproduce that exception.
- Pipeline.SalesQueue.CompleteAdding and Pipeline.SalesQueue.Take accept a disposed collection, where `BlockingCollection` throws `ObjectDisposedException`. No path of the model calls them on a disposed collection: the router and the workers only use queues that are not disposed.
- `GC.SuppressFinalize` is not modelled.
- Not modelled: `SalesDataHelper` (random data), `Main` and `SaveToDatabase` (console output and timing).
- Ghost bookkeeping: `Summarizer` carries ghost fields the program does not have.
  - `routed`, the records the router took;
  - `companies` and `queues`, per worker;
  - `slot`, which shows that no two workers share a queue.

  These fields state and prove the routing properties; they change nothing the program computes.
- The key from line 266 can collide across different groups (`SummaryKeys.KeyCollision`). The model keeps the program's behaviour: colliding records are summed into one row.
