# DbTest metrics pipeline, in Dafny

DbTest is a database benchmark. It runs five workload loops side by side against one table: insert, select, update, delete and vacuum. After every iteration a loop records a measurement in a shared collector. A console loop periodically prints a one-screen summary of the latest measurements. At the end a snapshot is written as a report.

This project models the core of that program and proves properties about the model:

- **throughput arithmetic** (`Speed`): the figures shared by the insert, select, update and delete measurements;
- **the five measurement records** (`Operations`);
- **the collector** (`Collector.BenchmarkMetrics`): a class with five append-only sequences, plus the filtered, stably sorted snapshot the collector hands out;
- **the snapshot value and its text summary** (`Snapshots`);
- **test record batches** (`Records`) and the hex payload encoding they use (`Bytes`);
- **the time-ordered UUID byte layout** (`Ids`);
- **the option records** (`Options`);
- **one turn of each workload loop** (`Benchmark.DbBenchmark`), run single-threaded, with a driver for the insert loop;
- **the configuration policies of `Program.cs`** (`Config`).

`Ordering` holds the sequence operations the collector uses:

- `Where` (`Upto`);
- a stable `OrderBy`, as an insertion sort by key;
- `Min`/`Max` by key.

## Conventions

- **Timestamps and durations.** A `DateTime` or `DateTimeOffset` and a `TimeSpan` are integer ticks of 100 ns.
- **Decimal arithmetic** is exact rational arithmetic (`real`).
- **Truncation.** The `(long)` cast of a positive `decimal` is `Floor`.
- **Inputs.** A clock reading, a stopwatch reading, a `Random.Shared` draw, random bytes and a backend result (the abstract `Insert`, `Select`, `Update` and `Delete`) are all parameters.
- **Random draws.** A draw `Random.Next(min, max)` throws when `min > max`. It returns `min` when the bounds are equal, otherwise a value in `[min, max)` (`Benchmark.Drawn`).
- **The id generator delegate** takes a third argument: the random GUID the generator would draw.
- **Exceptions** that end a loop are the `Faulted` outcome, or `None` from `Records.Range`. They arise from:
  - a draw with crossed bounds;
  - a negative batch size;
  - a timestamp past `DateTime.MaxValue`, or before `DateTime.MinValue` when the step is negative;
  - `Max` over an empty batch.

## Model

| member | source | states |
|---|---|---|
| Speed.Compute | DbTest/Benchmarks/Metrics/Common/SpeedMetrics.cs:5-16 | Both figures are 0 unless duration > 0 and items > 0. Under that guard the rate is `items * 10^7 / ticks` in exact arithmetic and is positive. Also under the guard, rate times ticks-per-item is exactly `TicksPerSecond`, and the million-items duration is `floor(ticks * 10^6 / items)`. The duration is never negative. |
| Speed.FloorIsIntegerDivision | DbTest/Benchmarks/Metrics/Common/SpeedMetrics.cs:10-13 | Truncating the exact quotient of non-negative integers is integer division. |
| Speed.RateIsItemsPerSecond | DbTest/Benchmarks/Metrics/Common/SpeedMetrics.cs:9-12 | `TicksPerSecond / (ticks / items)` equals `items * TicksPerSecond / ticks`, and multiplying it back by ticks-per-item gives `TicksPerSecond`. |
| Operations.NewInsertMetrics | DbTest/Benchmarks/Metrics/Operations/InsertMetrics.cs:7-23 | Every argument is stored unchanged. The time since the first measurement is `measuredAt - firstMeasure`: zero when the two are equal, non-negative when the first is not later. The speed figures come from the duration and the actual inserted count. |
| Operations.NewSelectMetrics | DbTest/Benchmarks/Metrics/Operations/SelectMetrics.cs:7-25 | The requested and the actual counts are kept separately and unchanged. The speed figures come from the actual selected count, and the elapsed time is derived as for inserts. |
| Operations.NewUpdateMetrics | DbTest/Benchmarks/Metrics/Operations/UpdateMetrics.cs:7-27 | The offset and the requested and actual counts are stored as passed. The speed figures come from the actual updated count. |
| Operations.NewDeleteMetrics | DbTest/Benchmarks/Metrics/Operations/DeleteMetrics.cs:7-25 | The requested and actual counts are stored as passed. The speed figures come from the actual deleted count. |
| Operations.NewVacuumMetrics | DbTest/Benchmarks/Metrics/Operations/VacuumMetrics.cs:3-21 | Both counter readings (after and before), the pause and the duration are stored unchanged, with the derived elapsed time. The record has no speed figures. |
| Ordering.Upto | DbTest/Benchmarks/Metrics/BenchmarkMetrics.cs:164-165 | `Where(key <= bound)` keeps exactly the elements at or below the bound, with their multiplicities, and nothing else. |
| Ordering.OrderBy | DbTest/Benchmarks/Metrics/BenchmarkMetrics.cs:166 | `OrderBy` is a permutation of its input: same length, same multiset. |
| Ordering.OrderBySorted | DbTest/Benchmarks/Metrics/BenchmarkMetrics.cs:166 | The result of `OrderBy` is sorted non-decreasing by key. |
| Ordering.OrderByStable | DbTest/Benchmarks/Metrics/BenchmarkMetrics.cs:166 | `OrderBy` is stable: for every key, the elements with that key keep their relative order. |
| Ordering.OrderByOfSorted | DbTest/Benchmarks/Metrics/BenchmarkMetrics.cs:166 | An input already sorted by key is returned unchanged. |
| Ordering.MinKey | DbTest/Benchmarks/Metrics/BenchmarkMetrics.cs:25 | `Min(key)` of a non-empty sequence is the key of one of its elements and is at most every element's key. |
| Ordering.MaxKey | DbTest/Benchmarks/AbstractDbBenchmark.cs:70 | `Max(key)` of a non-empty sequence is the key of one of its elements and is at least every element's key. |
| Ordering.WindowIsWindow | DbTest/Benchmarks/Metrics/BenchmarkMetrics.cs:164-167 | Filter-then-sort yields exactly the entries at or below the bound (as a multiset), sorted, with equal keys in stored order. |
| Ordering.WindowGrows | DbTest/Benchmarks/Metrics/BenchmarkMetrics.cs:164-167 | Extending the input and raising the bound only adds entries to the window. |
| Collector.FirstMeasure | DbTest/Benchmarks/Metrics/BenchmarkMetrics.cs:20-26 | The first-measure time is the clock reading when no entry is stored. Otherwise it is the minimum `MeasuredAt` of the stored entries: attained by one entry and at most all of them. |
| Collector.FirstMeasureNotLater | DbTest/Benchmarks/Metrics/BenchmarkMetrics.cs:20-26 | If no stored entry is later than the clock, the first-measure time is not later than the clock. |
| Collector.BenchmarkMetrics.constructor | DbTest/Benchmarks/Metrics/BenchmarkMetrics.cs:7-11 | All five sequences start empty. |
| Collector.BenchmarkMetrics.AddSelect | DbTest/Benchmarks/Metrics/BenchmarkMetrics.cs:13-40 | The select sequence becomes the old one plus one new entry, built from the first-measure time and the clock. The other four sequences are unchanged. The first entry ever has elapsed time 0, and the new entry's elapsed time is non-negative when the clock is not earlier than the stored entries. |
| Collector.BenchmarkMetrics.AddInsert | DbTest/Benchmarks/Metrics/BenchmarkMetrics.cs:42-67 | Same as `AddSelect`, for the insert sequence. |
| Collector.BenchmarkMetrics.AddUpdate | DbTest/Benchmarks/Metrics/BenchmarkMetrics.cs:69-98 | Same as `AddSelect`, for the update sequence. |
| Collector.BenchmarkMetrics.AddDelete | DbTest/Benchmarks/Metrics/BenchmarkMetrics.cs:100-127 | Same as `AddSelect`, for the delete sequence. |
| Collector.BenchmarkMetrics.AddVacuum | DbTest/Benchmarks/Metrics/BenchmarkMetrics.cs:129-153 | Same as `AddSelect`, for the vacuum sequence. |
| Collector.BenchmarkMetrics.Snapshot | DbTest/Benchmarks/Metrics/BenchmarkMetrics.cs:155-192 | Changes nothing and returns the snapshot of the five current sequences at the given clock reading. |
| Collector.TakeSnapshot | DbTest/Benchmarks/Metrics/BenchmarkMetrics.cs:155-192 | The snapshot carries its creation time. |
| Collector.SnapshotIsWindow | DbTest/Benchmarks/Metrics/BenchmarkMetrics.cs:164-183 | Each snapshot sequence holds exactly the stored entries with `MeasuredAt <= createdAt` (as a multiset) and nothing later. It is sorted by `MeasuredAt`, and entries with equal timestamps keep their stored order. |
| Collector.SnapshotMonotone | DbTest/Benchmarks/Metrics/BenchmarkMetrics.cs:155-192 | A later snapshot of extended stores contains every entry of an earlier one, kind by kind. |
| Collector.SnapshotOfOrderedStore | DbTest/Benchmarks/Metrics/BenchmarkMetrics.cs:164-183 | When the stored entries are in time order and none is later than `createdAt`, the snapshot equals the stores. |
| Snapshots.LastOrDefault | DbTest/Benchmarks/Metrics/MetricsSnapshot.cs:33-37 | The result is nothing exactly when the sequence is empty, and otherwise its last element. |
| Snapshots.SummaryLines | DbTest/Benchmarks/Metrics/MetricsSnapshot.cs:39-49 | Six lines in the order Date, Insert, Select, Update, Delete, Vacuum. Each kind's line starts with the kind's name and its sequence's length in brackets. |
| Snapshots.FormatLast | DbTest/Benchmarks/Metrics/MetricsSnapshot.cs:31-51 | The text is the six summary lines appended in order, each followed by the line terminator. |
| Snapshots.AppendedLinesSnoc | DbTest/Benchmarks/Metrics/MetricsSnapshot.cs:38-50 | One more `AppendLine` extends the builder's text by that line and the terminator. |
| Snapshots.SummaryShowsOnlyLast | DbTest/Benchmarks/Metrics/MetricsSnapshot.cs:33-49 | Snapshots that agree on creation time, on each length and on each last entry print the same summary. |
| Snapshots.VacuumLineShowsOnlyDuration | DbTest/Benchmarks/Metrics/MetricsSnapshot.cs:48-49 | The vacuum line depends on the last vacuum entry only through its duration. |
| Snapshots.EmptyInsertLine | DbTest/Benchmarks/Metrics/MetricsSnapshot.cs:33-41 | An empty insert sequence prints `Insert[0]` with every field left blank. |
| Snapshots.DateLineShowsCreatedAt | DbTest/Benchmarks/Metrics/MetricsSnapshot.cs:39 | The first line is `Date: ` followed by the formatted creation time. |
| Snapshots.InsertLineShowsLast | DbTest/Benchmarks/Metrics/MetricsSnapshot.cs:33-41 | For a non-empty insert sequence, the line is `Insert[length]` followed by the last entry's duration, rate, counter and inserted count, under their labels. |
| Snapshots.SelectLineShowsLast | DbTest/Benchmarks/Metrics/MetricsSnapshot.cs:34-43 | For a non-empty select sequence, the line is `Select[length]` followed by the last entry's duration, rate, counter and selected count. |
| Snapshots.UpdateLineShowsLast | DbTest/Benchmarks/Metrics/MetricsSnapshot.cs:35-45 | For a non-empty update sequence, the line shows the last entry's duration, rate, counter and updated count; the count is labelled `Selected`, as in the source. |
| Snapshots.DeleteLineShowsLast | DbTest/Benchmarks/Metrics/MetricsSnapshot.cs:36-47 | For a non-empty delete sequence, the line shows the last entry's duration, rate, counter and deleted count; the count is labelled `Selected`. |
| Snapshots.VacuumLineShowsLast | DbTest/Benchmarks/Metrics/MetricsSnapshot.cs:37-49 | For a non-empty vacuum sequence, the line is `Vacuum[length]` followed by the last entry's duration only. |
| Snapshots.EmptySelectLine | DbTest/Benchmarks/Metrics/MetricsSnapshot.cs:34-43 | An empty select sequence prints `Select[0]` with every field left blank. |
| Snapshots.EmptyUpdateLine | DbTest/Benchmarks/Metrics/MetricsSnapshot.cs:35-45 | An empty update sequence prints `Update[0]` with every field left blank. |
| Snapshots.EmptyDeleteLine | DbTest/Benchmarks/Metrics/MetricsSnapshot.cs:36-47 | An empty delete sequence prints `Delete[0]` with every field left blank. |
| Snapshots.EmptyVacuumLine | DbTest/Benchmarks/Metrics/MetricsSnapshot.cs:37-49 | An empty vacuum sequence prints `Vacuum[0]` with a blank duration. |
| Bytes.ToHexString | DbTest/Models/TestRecord.cs:34 | The hex text has two upper-case hex digits per byte. |
| Bytes.HexRoundTrip | DbTest/Models/TestRecord.cs:33-34 | Decoding the hex text gives back exactly the payload bytes. |
| Records.Range | DbTest/Models/TestRecord.cs:21-40 | The batch has exactly `count` records. Record `i` is stamped `startDate + (i+1)*step`, and consecutive stamps differ by `step`. Each payload is the hex text of that record's 64 random bytes (128 characters), and each id is the generator applied to that record's own stamp and payload. The result is `None` exactly when the count is negative or a stamp leaves the `DateTime` range. |
| Records.LatestStamp | DbTest/Models/TestRecord.cs:29-32 | Every stamp of a batch is at most the last record's stamp when the step is not negative, and at most the first's otherwise. |
| Ids.VersionByte | DbTest/IdGenerators.cs:26-37 | Byte 0 has high nibble 0001 and keeps the low nibble of tick byte 7. |
| Ids.VariantByte | DbTest/IdGenerators.cs:29-45 | Byte 8 has top bits 10 (the variant of section 4.1.1 of RFC 4122) and keeps the low six bits of the random byte. |
| Ids.VersionMask | DbTest/IdGenerators.cs:37 | On every 8-bit value, the mask-and-flag of the source equals the arithmetic form `VersionByte` uses. |
| Ids.VariantMask | DbTest/IdGenerators.cs:45 | On every 8-bit value, the mask-and-flag of the source equals the arithmetic form `VariantByte` uses. |
| Ids.DbOptimizedLayout | DbTest/IdGenerators.cs:23-47 | The version and variant bits are as above, and bytes 9..15 are the random GUID's bytes unchanged. |
| Ids.NewDbOptimized | DbTest/IdGenerators.cs:31-46 | Filling the 16-byte buffer from the random GUID, overwriting bytes 0..7 and masking byte 8 in place yields `DbOptimizedLayout`. |
| Ids.BigEndianOfReversed | DbTest/IdGenerators.cs:36-44 | The little-endian bytes of a value, read most significant first, give the value modulo `256^n`. |
| Ids.LittleEndianDigit | DbTest/IdGenerators.cs:36 | Byte `k` of the little-endian layout is base-256 digit `k` of the value. |
| Ids.TimestampPrefix | DbTest/IdGenerators.cs:35-44 | For tick offsets (from 1582-10-15) in `[0, 2^60)`, bytes 0..7 read big-endian equal `2^60 + offset`. |
| Ids.PrefixOrdersByDate | DbTest/IdGenerators.cs:35-44 | For such dates, one date is earlier than another exactly when its UUID prefix is smaller. |
| Ids.GenerateGuidNewGuid | DbTest/IdGenerators.cs:13-16 | The id is the fresh random GUID, whatever the timestamp and payload. |
| Benchmark.FixedBatchTotal | DbTest/Benchmarks/AbstractDbBenchmark.cs:68-69 | With every batch of size `b`, `n` turns generate `n*b` records. |
| Benchmark.FixedInsertedTotal | DbTest/Benchmarks/AbstractDbBenchmark.cs:74-77 | With the backend reporting `b` items in each of the first `n` turns, `n` turns add `n*b` to the counter. |
| Benchmark.NextBatchContinues | DbTest/Benchmarks/AbstractDbBenchmark.cs:69-70 | With `step >= 0`, the next batch starts one step after the last record of the previous one, continuing the same series. |
| Benchmark.AdvanceStart | DbTest/Benchmarks/AbstractDbBenchmark.cs:69-70 | After `total` records, a batch of `count` moves the start date by `count` steps. |
| Benchmark.DbBenchmark.constructor | DbTest/Benchmarks/AbstractDbBenchmark.cs:18-30 | The options are kept, the collector is fresh and empty, the counter is 0, and nothing is cancelled. |
| Benchmark.DbBenchmark.Stop | DbTest/Benchmarks/AbstractDbBenchmark.cs:47-49 | Sets the cancellation flag and leaves the counter alone. |
| Benchmark.DbBenchmark.InsertIteration | DbTest/Benchmarks/AbstractDbBenchmark.cs:66-87 | When already cancelled, nothing changes. The turn completes exactly when the draw's bounds are ordered, the batch is non-empty and its stamps fit. Then the next start is the batch's maximum timestamp, which is its latest stamp, the counter grows by exactly the backend's count, and one insert entry carrying the post-increment counter is appended. On a fault nothing changes. The other kinds' sequences never change. |
| Benchmark.DbBenchmark.RunInsertLoop | DbTest/Benchmarks/AbstractDbBenchmark.cs:62-88 | The counter equals its start value plus the sum of the reported inserted counts. The insert sequence grows by exactly the number of completed turns, keeping its old entries as a prefix. The `k`-th new entry records turn `k`: the counter just after it (start value plus the first `k + 1` reported counts), that turn's reported count, and its clock reading. The start date (step >= 0) is the configured start plus the records generated times the step. Nothing runs when already cancelled, and no turn starts after a stop is requested. |
| Benchmark.DbBenchmark.SelectIteration | DbTest/Benchmarks/AbstractDbBenchmark.cs:100-122 | Only the collector is modified, never the counter. The turn completes exactly when not cancelled and the draw does not fault. It then appends one select entry with the counter, the drawn request and the backend's count, and changes no other kind. |
| Benchmark.DbBenchmark.UpdateIteration | DbTest/Benchmarks/AbstractDbBenchmark.cs:135-160 | The offset is drawn between `MinItemsToSkip` and the skip policy applied to the counter at the start of the turn, and the count between the update bounds. The turn completes exactly when neither draw faults, and then appends one update entry. Only the collector is modified. |
| Benchmark.DbBenchmark.DeleteIteration | DbTest/Benchmarks/AbstractDbBenchmark.cs:174-197 | Like `SelectIteration`, for the delete sequence. |
| Benchmark.DbBenchmark.RecordVacuum | DbTest/Benchmarks/AbstractDbBenchmark.cs:217-222 | Appends one vacuum entry with the counter read now, the earlier reading, the pause and the duration. |
| Benchmark.DbBenchmark.VacuumIteration | DbTest/Benchmarks/AbstractDbBenchmark.cs:210-227 | With nothing running beside it, both counter readings of the vacuum entry are the current counter. Cancellation means nothing is recorded. |
| Benchmark.DbBenchmark.VacuumOverlappingInsert | DbTest/Benchmarks/AbstractDbBenchmark.cs:213-218 | With an insert turn between the two readings, the "before" reading is at most the "after" reading. |
| Benchmark.DbBenchmark.GetMetricsSnapshot | DbTest/Benchmarks/AbstractDbBenchmark.cs:234-237 | Returns the collector's snapshot of its current sequences. |
| Config.MaxItemsToSkipPolicy | DbTest/Program.cs:152-161 | The policy is never negative, is at least `alreadyWritten - 1000`, and is either 0 or exactly `alreadyWritten - 1000`. |
| Config.SkipPolicySmallCounter | DbTest/Program.cs:154-160 | The policy gives 0 for 30 written items, and for any count up to 1000. |
| Config.CreateInsertOptions | DbTest/Program.cs:98-114 | The id generator passed in, a fixed batch size of 25 000 (both bounds), a start on 2000-01-01, a positive 100 ms step, read-committed isolation and a 1 ms pause. |
| Config.FirstBatchFits | DbTest/Program.cs:98-114 | Every timestamp of a 25 000-record batch from the configured start is a valid `DateTime`. |
| Config.CreateSelectOptions | DbTest/Program.cs:116-127 | Exactly 1000 items to select (both bounds), read-committed isolation and a 1 ms pause. |
| Config.CreateDeleteOptions | DbTest/Program.cs:129-140 | Exactly 5000 items to delete (both bounds), read-committed isolation and a one-second pause. |
| Config.CreateUpdateOptions | DbTest/Program.cs:142-164 | Exactly 1000 items to update (both bounds), a skip of at least 0 bounded by `MaxItemsToSkipPolicy`, read-committed isolation and a 5 s pause. |
| Config.CreateVacuumOptions | DbTest/Program.cs:166-169 | A 30 s pause. |
| Config.CreateOptions | DbTest/Program.cs:71-96 | The five option groups are the ones the `Create*Options` functions build, with the insert group using the given id generator. |
| Config.MainIdsAreRandom | DbTest/Program.cs:17-24 | With the `GuidNewGuid` generator `Main` passes in, every inserted record's id is the fresh random GUID. |
| Config.DefaultInsertCounter | DbTest/Pg/PgBenchmark.cs:107-118 | When the backend writes every record of each 25 000-record batch, as the PostgreSQL `Insert` does, the counter after `n` turns is `n * 25000`, which equals the number of records generated. |
| Config.DefaultDrawsNeverFault | DbTest/Program.cs:98-164 | Under the configured options no loop's draw throws, whatever the counter. The batch size is always 25 000, the update count 1000, and the offset lies in `[0, policy(counter)]`. |
| Config.DefaultInsertSeries | DbTest/Program.cs:100-104 | With batches of 25 000 records at 100 ms steps, the start date after `n` turns is `n * 2500` seconds after 2000-01-01. |
| Config.GetDuration | DbTest/Program.cs:59-69 | The parsed value is returned exactly when an argument exists, parses, and exceeds one second; otherwise the result is two minutes. The result always exceeds one second. |
| Config.OneSecondFallsBack | DbTest/Program.cs:61-68 | Exactly one second falls back to two minutes. |

## Left out

- **Threads and synchronisation.** `Start`/`Join`, `Interlocked` and `CancellationTokenSource` are left out. The counter and the cancellation flag are plain fields, and the collector's publish is a field assignment. One interleaving, an insert between the two counter reads of a vacuum, is modelled by `VacuumOverlappingInsert`.
- **Clocks and sleeping.** The clock, the stopwatch and `Thread.Sleep` are left out; their readings are parameters, and the pause is only carried.
- **The PostgreSQL backend** (`Pg/PgBenchmark.cs`, `Pg/PgBenchmarkOptions.cs`). The backend operations' results are parameters, so the "returns 0 when already cancelled" behaviour is not modelled. `Config.DefaultInsertCounter` covers the case where `Insert` returns the full batch size. This makes no difference here: the loops test the flag first and the model is single-threaded.
- **The connection and transaction factories and the commit.** The isolation level is carried in the options and never used.
- **`DbTestHard/Program.cs`.** It is a separate console script.
- **`Main`'s polling loop, console output, JSON report and file write.** `CreatePgOptions`' connection string is not modelled either.
- **The microsecond fields** (`TimeSinceFirstMeasureUs`, `DurationUs`). They go through `double`.
- Speed.Compute: does not model `decimal`'s 28-digit rounding. It also omits the overflow exception of the `(long)` cast, which needs more than `2^63` ticks per million items.
- **.NET format strings** (`"O"`, `"g"`, `"F2"`) and string interpolation of numbers. They are the abstract functions of `Snapshots.Formats`, and the line terminator is a parameter.
- **`GenerateUuidDbOptimized`** and the `UuidDbOptimized` generator. They depend on the foreign `Uuid.ToGuidStringLayout`; only the byte layout of `NewDbOptimized` is modelled.
- **Host byte order.** `NewDbOptimized` reads the `long` through a byte pointer. The model assumes a little-endian host (`Ids.LongBytes`).
- **Legacy Guid byte swapping.** The random GUID is taken as its 16 bytes in memory order.
- Ids.TimestampPrefix: stated only for tick offsets in `[0, 2^60)`, since higher ticks spill into the version nibble. The `Ids.VersionByte` and `Ids.VariantByte` masks are written arithmetically; `Ids.VersionMask` and `Ids.VariantMask` connect them to the bit operations on `bv8`.
- **Random sources** (`RandomNumberGenerator`, `Guid.NewGuid`, `Random.Shared`). Their outputs are inputs, and only their documented bounds are assumed.
- **Integer widths.** 64-bit wrap-around of the counter and of the item counts is not modelled (integers are unbounded), and neither are the `int` limits of a batch size.
- **Passing `null` to `GetDuration`.** `Config.GetDuration` covers the empty argument list only.
- **`TimeSpan.TryParse`.** Its grammar is a parameter.
- **The array copy in `AddX`.** Allocating a fresh array plus `Array.Copy` is modelled as sequence concatenation, so the aliasing of the published arrays is not captured.
