/**
 * Program.cs: the configuration the benchmark runs with.  Time spans are
 * ticks; `TimeSpan.TryParse` is a parameter, since its grammar is not
 * part of this model.
 */
module Config {
  import opened Wrappers
  import opened Records
  import opened Options
  import opened Benchmark
  import opened Ids
  import opened Bytes

  const OneSecond: int := 10_000_000
  const TwoMinutes: int := 120 * OneSecond
  const OneMillisecond: int := 10_000

  /** `new DateTime(2000, 1, 1, 0, 0, 0, DateTimeKind.Utc)` in ticks. */
  const InsertsStartedAt: DateTime := 630_822_816_000_000_000
  /** `TimeSpan.FromMilliseconds(100)`. */
  const InsertedItemStep: int := 100 * OneMillisecond

  const BatchSize: int := 25_000
  const ItemsToSelect: int := 1_000
  const ItemsToDelete: int := 5_000
  /** `maxItemsToUpdate`, which the skip policy also subtracts. */
  const ItemsToUpdate: int := 1_000

  /**
   * The `MaxItemsToSkip` policy of `CreateUpdateOptions`: the counter less
   * `maxItemsToUpdate` when that is positive, otherwise 0.
   */
  function MaxItemsToSkipPolicy(alreadyWritten: int): (maxSkip: int)
    ensures maxSkip >= 0
    ensures maxSkip >= alreadyWritten - ItemsToUpdate
    ensures maxSkip == 0 || maxSkip == alreadyWritten - ItemsToUpdate
  {
    var maxSkip := alreadyWritten - ItemsToUpdate;
    if maxSkip > 0 then maxSkip else 0
  }

  /** Below `maxItemsToUpdate + 1` written items there is nothing to skip: 30 gives 0. */
  lemma SkipPolicySmallCounter()
    ensures MaxItemsToSkipPolicy(30) == 0
    ensures forall n :: n <= ItemsToUpdate ==> MaxItemsToSkipPolicy(n) == 0
  {
  }

  /** Batches of exactly 25 000 records whose timestamps run from 2000-01-01 in 100 ms steps. */
  function CreateInsertOptions(idGenerator: IdGenerator): (o: InsertOptions)
    ensures o.idGenerator == idGenerator
    ensures o.minBatchSize == o.maxBatchSize == BatchSize
    ensures o.startDate == InsertsStartedAt && o.step == InsertedItemStep > 0
    ensures o.isolationLevel == ReadCommitted && o.pause == OneMillisecond
  {
    InsertOptions(idGenerator, BatchSize, BatchSize, InsertsStartedAt, InsertedItemStep,
                  ReadCommitted, OneMillisecond)
  }

  /** The first batch's timestamps are all valid dates. */
  lemma FirstBatchFits(idGenerator: IdGenerator)
    ensures StampsFit(BatchSize, CreateInsertOptions(idGenerator).startDate, CreateInsertOptions(idGenerator).step)
  {
  }

  /** Select exactly 1000 items, pausing 1 ms between turns. */
  function CreateSelectOptions(): (o: SelectOptions)
    ensures o.minItemsToSelect == o.maxItemsToSelect == ItemsToSelect
    ensures o.isolationLevel == ReadCommitted && o.pause == OneMillisecond
  {
    SelectOptions(ItemsToSelect, ItemsToSelect, ReadCommitted, OneMillisecond)
  }

  /** Delete exactly 5000 items, pausing one second between turns. */
  function CreateDeleteOptions(): (o: DeleteOptions)
    ensures o.minItemsToDelete == o.maxItemsToDelete == ItemsToDelete
    ensures o.isolationLevel == ReadCommitted && o.pause == OneSecond
  {
    DeleteOptions(ItemsToDelete, ItemsToDelete, ReadCommitted, OneSecond)
  }

  /** Update exactly 1000 items after skipping between 0 and the policy's bound, pausing 5 s. */
  function CreateUpdateOptions(): (o: UpdateOptions)
    ensures o.minItemsToUpdate == o.maxItemsToUpdates == ItemsToUpdate
    ensures o.minItemsToSkip == 0 && o.maxItemsToSkip == MaxItemsToSkipPolicy
    ensures o.isolationLevel == ReadCommitted && o.pause == 5 * OneSecond
  {
    UpdateOptions(ItemsToUpdate, ItemsToUpdate, 0, MaxItemsToSkipPolicy, ReadCommitted, 5 * OneSecond)
  }

  /** Vacuum every 30 seconds. */
  function CreateVacuumOptions(): (o: VacuumOptions)
    ensures o.pause == 30 * OneSecond
  {
    VacuumOptions(30 * OneSecond)
  }

  /** The options `CreatePgOptions` builds, without the connection string. */
  function CreateOptions(idGenerator: IdGenerator): (o: BenchmarkOptions)
    ensures o.insert == CreateInsertOptions(idGenerator) && o.delete == CreateDeleteOptions()
    ensures o.select == CreateSelectOptions() && o.update == CreateUpdateOptions()
    ensures o.vacuum == CreateVacuumOptions()
  {
    BenchmarkOptions(CreateInsertOptions(idGenerator), CreateDeleteOptions(), CreateSelectOptions(),
                     CreateUpdateOptions(), CreateVacuumOptions())
  }

  /**
   * `Main` configures the benchmark with `IdGenerators.GuidNewGuid`: every
   * record it inserts is keyed by the fresh random GUID.
   */
  lemma MainIdsAreRandom(createdAt: DateTime, value: string, random: Guid)
    ensures CreateOptions(GuidNewGuid).insert.idGenerator(createdAt, value, random) == random
  {
  }

  /**
   * Under this configuration no draw of any loop throws, whatever the
   * counter: the skip bounds satisfy `0 <= policy(counter)`, and every fixed
   * count is drawn as itself.
   */
  lemma DefaultDrawsNeverFault(idGenerator: IdGenerator, counter: int, batch: int, offset: int, count: int)
    requires Drawn(batch, CreateOptions(idGenerator).insert.minBatchSize, CreateOptions(idGenerator).insert.maxBatchSize)
    requires Drawn(offset, CreateUpdateOptions().minItemsToSkip, CreateUpdateOptions().maxItemsToSkip(counter))
    requires Drawn(count, CreateUpdateOptions().minItemsToUpdate, CreateUpdateOptions().maxItemsToUpdates)
    ensures !DrawFaults(CreateUpdateOptions().minItemsToSkip, CreateUpdateOptions().maxItemsToSkip(counter))
    ensures !DrawFaults(CreateUpdateOptions().minItemsToUpdate, CreateUpdateOptions().maxItemsToUpdates)
    ensures !DrawFaults(CreateSelectOptions().minItemsToSelect, CreateSelectOptions().maxItemsToSelect)
    ensures !DrawFaults(CreateDeleteOptions().minItemsToDelete, CreateDeleteOptions().maxItemsToDelete)
    ensures batch == BatchSize && count == ItemsToUpdate
    ensures 0 <= offset <= MaxItemsToSkipPolicy(counter)
    ensures counter > ItemsToUpdate + 1 ==> offset < counter - ItemsToUpdate
  {
  }

  /**
   * With the configured fixed batch size, the start date after `n` insert
   * turns is `n` batches of 100 ms steps after 2000-01-01.
   */
  lemma DefaultInsertSeries(script: seq<InsertStep>, n: nat)
    requires n <= |script|
    requires forall k :: 0 <= k < |script| ==> script[k].batchSize == BatchSize
    ensures InsertsStartedAt + TotalBatched(script, n) * InsertedItemStep
            == InsertsStartedAt + n * 2_500 * OneSecond
  {
    FixedBatchTotal(script, n, BatchSize);
  }

  /**
   * With every batch of the configured size inserted in full, the counter
   * after `n` insert turns is `n` times 25 000.
   */
  lemma DefaultInsertCounter(script: seq<InsertStep>, n: nat)
    requires n <= |script|
    requires forall k :: 0 <= k < |script| ==> script[k].inserted == script[k].batchSize == BatchSize
    ensures TotalInserted(script, n) == n * BatchSize
    ensures TotalInserted(script, n) == TotalBatched(script, n)
  {
    FixedInsertedTotal(script, n, BatchSize);
    FixedBatchTotal(script, n, BatchSize);
  }

  /**
   * `GetDuration`: the first argument when it parses as a span longer than
   * one second, two minutes otherwise.
   */
  function GetDuration(args: seq<string>, tryParse: string -> Option<int>): (duration: int)
    ensures duration > OneSecond
    ensures (|args| > 0 && tryParse(args[0]).Some? && tryParse(args[0]).value > OneSecond)
            ==> duration == tryParse(args[0]).value
    ensures !(|args| > 0 && tryParse(args[0]).Some? && tryParse(args[0]).value > OneSecond)
            ==> duration == TwoMinutes
  {
    if |args| > 0 && tryParse(args[0]).Some? && tryParse(args[0]).value > OneSecond
    then tryParse(args[0]).value
    else TwoMinutes
  }

  /** Exactly one second is not accepted: the comparison is strict. */
  lemma OneSecondFallsBack(args: seq<string>, tryParse: string -> Option<int>)
    requires |args| > 0 && tryParse(args[0]) == Some(OneSecond)
    ensures GetDuration(args, tryParse) == TwoMinutes
  {
  }
}
