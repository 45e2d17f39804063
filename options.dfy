/**
 * The option classes of the benchmark (the files under Benchmarks/Options):
 * constructor-initialised, get-only carriers, hence plain datatypes.  Time
 * spans are integer ticks, dates are `DateTime` ticks, and the delegates
 * `IdGenerator` and `MaxItemsToSkip` are function-typed fields.
 */
module Options {
  import opened Records

  /** `System.Data.IsolationLevel`; carried through to the transaction factory only. */
  datatype IsolationLevel =
    | Unspecified | Chaos | ReadUncommitted | ReadCommitted | RepeatableRead | Serializable | Snapshot

  datatype InsertOptions = InsertOptions(
    idGenerator: IdGenerator,
    minBatchSize: int,
    maxBatchSize: int,
    startDate: DateTime,
    step: int,
    isolationLevel: IsolationLevel,
    pause: int)

  datatype SelectOptions = SelectOptions(
    minItemsToSelect: int,
    maxItemsToSelect: int,
    isolationLevel: IsolationLevel,
    pause: int)

  datatype UpdateOptions = UpdateOptions(
    minItemsToUpdate: int,
    maxItemsToUpdates: int,
    minItemsToSkip: int,
    maxItemsToSkip: int -> int,
    isolationLevel: IsolationLevel,
    pause: int)

  datatype DeleteOptions = DeleteOptions(
    minItemsToDelete: int,
    maxItemsToDelete: int,
    isolationLevel: IsolationLevel,
    pause: int)

  datatype VacuumOptions = VacuumOptions(pause: int)

  datatype BenchmarkOptions = BenchmarkOptions(
    insert: InsertOptions,
    delete: DeleteOptions,
    select: SelectOptions,
    update: UpdateOptions,
    vacuum: VacuumOptions)
}
