/**
 * AbstractDbBenchmark.cs: one turn of each of the five workload loops, run
 * single-threaded.  The shared `AlreadyWritten` counter and the
 * cancellation flag are fields; a random draw, a stopwatch reading, a clock
 * reading and each backend result (`Insert`, `Select`, `Update`, `Delete`)
 * is a parameter.  A turn of a loop is the cancellation test at its head
 * followed by its body; an exception the body raises ends the loop, which
 * the model reports as `Faulted`.
 */
module Benchmark {
  import opened Wrappers
  import opened Bytes
  import opened Ordering
  import opened Operations
  import opened Snapshots
  import opened Records
  import opened Collector
  import opened Options

  /** `Random.Next(min, max)` and `Random.NextInt64(min, max)` throw when `min > max`. */
  predicate DrawFaults(min: int, max: int) {
    min > max
  }

  /** A value such a draw can return: `min` when the bounds are equal, otherwise one in `[min, max)`. */
  predicate IsDraw(x: int, min: int, max: int) {
    if min == max then x == min else min <= x < max
  }

  /** A drawn value `x` is one the bounds allow whenever the draw does not throw. */
  predicate Drawn(x: int, min: int, max: int) {
    !DrawFaults(min, max) ==> IsDraw(x, min, max)
  }

  /** How one turn of a loop ends. */
  datatype IterationOutcome = Completed | Cancelled | Faulted

  function RecordTime(r: TestRecord): int { r.createdAt }

  /** The latest timestamp of a non-empty batch: its last record's unless the step is negative. */
  function LatestStampOf(count: int, startDate: int, step: int): int {
    if step >= 0 then StampAt(startDate, step, count - 1) else StampAt(startDate, step, 0)
  }

  /** The insert turn runs to the end: not cancelled, a batch size drawn, a batch built and not empty. */
  ghost predicate InsertCompletes(cancelled: bool, o: InsertOptions, startDate: DateTime, batchSize: int) {
    && !cancelled
    && !DrawFaults(o.minBatchSize, o.maxBatchSize)
    && batchSize > 0
    && StampsFit(batchSize, startDate, o.step)
  }

  /** The script of one turn of the insert loop: the draw, the random inputs and the readings. */
  datatype InsertStep = InsertStep(
    batchSize: int,
    randomBytes: seq<seq<byte>>,
    randomIds: seq<Guid>,
    inserted: nat,
    elapsed: int,
    now: int,
    stopRequested: bool)

  ghost predicate ValidInsertStep(o: InsertOptions, s: InsertStep) {
    && Drawn(s.batchSize, o.minBatchSize, o.maxBatchSize)
    && s.batchSize <= |s.randomBytes| && s.batchSize <= |s.randomIds|
    && forall i :: 0 <= i < |s.randomBytes| ==> |s.randomBytes[i]| == PayloadBytes
  }

  /** The items the backend reported inserted in the first `n` turns. */
  function TotalInserted(script: seq<InsertStep>, n: nat): int
    requires n <= |script|
  {
    if n == 0 then 0 else TotalInserted(script, n - 1) + script[n - 1].inserted
  }

  /** The records generated in the first `n` turns. */
  function TotalBatched(script: seq<InsertStep>, n: nat): int
    requires n <= |script|
  {
    if n == 0 then 0 else TotalBatched(script, n - 1) + script[n - 1].batchSize
  }

  /** With every batch of the same size, `n` turns generate `n` batches' worth of records. */
  lemma {:induction false} FixedBatchTotal(script: seq<InsertStep>, n: nat, size: int)
    requires n <= |script|
    requires forall k :: 0 <= k < |script| ==> script[k].batchSize == size
    ensures TotalBatched(script, n) == n * size
  {
    if n > 0 {
      FixedBatchTotal(script, n - 1, size);
      assert (n - 1) * size + size == n * size;
    }
  }

  /**
   * With the backend reporting `size` items for each of the first `n`
   * turns, the counter grows by `n * size`.
   */
  lemma {:induction false} FixedInsertedTotal(script: seq<InsertStep>, n: nat, size: int)
    requires n <= |script|
    requires forall k :: 0 <= k < n ==> script[k].inserted == size
    ensures TotalInserted(script, n) == n * size
  {
    if n > 0 {
      FixedInsertedTotal(script, n - 1, size);
      assert (n - 1) * size + size == n * size;
    }
  }

  /** Consecutive non-empty batches continue one evenly spaced series of timestamps. */
  lemma NextBatchContinues(startDate: int, step: int, count: int)
    requires count > 0 && step >= 0
    ensures StampAt(LatestStampOf(count, startDate, step), step, 0) == StampAt(startDate, step, count)
    ensures LatestStampOf(count, startDate, step) == startDate + count * step
  {
  }

  /** After `total` records, a batch of `count` more moves the start date `count` steps on. */
  lemma AdvanceStart(base: int, total: int, count: int, step: int)
    requires count > 0 && step >= 0
    ensures LatestStampOf(count, base + total * step, step) == base + (total + count) * step
  {
    assert (total + count) * step == total * step + count * step;
  }

  /**
   * Entries `base`, `base + 1`, ... of `log` record the first `n` turns of
   * `script`: the counter after each turn, the backend's count and the clock.
   */
  ghost predicate InsertsLogged(log: seq<InsertMetrics>, base: nat, written: int, script: seq<InsertStep>, n: nat)
    requires n <= |script| && base + n <= |log|
  {
    && (forall i :: base <= i < base + n ==>
          log[i].alreadyWrittenItems == written + TotalInserted(script, i - base + 1))
    && (forall i :: base <= i < base + n ==> log[i].actualInsertedItems == script[i - base].inserted)
    && (forall i :: base <= i < base + n ==> log[i].measuredAt == script[i - base].now)
  }

  /** Appending the entry of turn `n` extends the logged turns by one. */
  lemma InsertsLoggedSnoc(log: seq<InsertMetrics>, base: nat, written: int, script: seq<InsertStep>, n: nat,
                          m: InsertMetrics)
    requires n < |script| && base + n == |log|
    requires InsertsLogged(log, base, written, script, n)
    requires m.alreadyWrittenItems == written + TotalInserted(script, n + 1)
    requires m.actualInsertedItems == script[n].inserted && m.measuredAt == script[n].now
    ensures InsertsLogged(log + [m], base, written, script, n + 1)
  {
    var log' := log + [m];
    forall i | base <= i < base + n + 1
      ensures log'[i].alreadyWrittenItems == written + TotalInserted(script, i - base + 1)
      ensures log'[i].actualInsertedItems == script[i - base].inserted
      ensures log'[i].measuredAt == script[i - base].now
    {
      if i < base + n {
        assert log'[i] == log[i];
      }
    }
  }

  lemma PrefixSnoc<T>(prefix: seq<T>, s: seq<T>, x: T)
    requires prefix <= s
    ensures prefix <= s + [x]
  {
    assert (s + [x])[..|prefix|] == s[..|prefix|];
  }

  class DbBenchmark {
    const options: BenchmarkOptions
    const metrics: BenchmarkMetrics
    /** `AlreadyWritten`: the items inserted so far. */
    var alreadyWritten: int
    /** `Cts.IsCancellationRequested`. */
    var cancelled: bool

    constructor (options: BenchmarkOptions)
      ensures this.options == options
      ensures fresh(metrics)
      ensures metrics.selectMetrics == [] && metrics.insertMetrics == [] && metrics.updateMetrics == []
      ensures metrics.deleteMetrics == [] && metrics.vacuumMetrics == []
      ensures alreadyWritten == 0 && !cancelled
    {
      this.options := options;
      metrics := new BenchmarkMetrics();
      alreadyWritten := 0;
      cancelled := false;
    }

    /** `Stop` requests cancellation; joining the threads is not modelled. */
    method Stop()
      modifies this
      ensures cancelled && alreadyWritten == old(alreadyWritten)
    {
      cancelled := true;
    }

    /**
     * One turn of `StartInsertLoop`: draw a batch size, build the batch,
     * move the start date to the batch's latest timestamp, insert, add the
     * backend's count to the counter and record the counter's new value.
     */
    method InsertIteration(startDate: DateTime, batchSize: int, randomBytes: seq<seq<byte>>,
                           randomIds: seq<Guid>, inserted: nat, elapsed: int, now: int)
      returns (outcome: IterationOutcome, nextStart: DateTime)
      requires Drawn(batchSize, options.insert.minBatchSize, options.insert.maxBatchSize)
      requires batchSize <= |randomBytes| && batchSize <= |randomIds|
      requires forall i :: 0 <= i < |randomBytes| ==> |randomBytes[i]| == PayloadBytes
      modifies this, metrics
      ensures cancelled == old(cancelled)
      ensures outcome == Cancelled <==> old(cancelled)
      ensures outcome == Completed <==> InsertCompletes(old(cancelled), options.insert, startDate, batchSize)
      ensures outcome == Completed ==>
        && nextStart == LatestStampOf(batchSize, startDate, options.insert.step)
        && alreadyWritten == old(alreadyWritten) + inserted
        && metrics.insertMetrics == old(metrics.insertMetrics) + [NewInsertMetrics(
             FirstMeasure(old(metrics.insertMetrics), InsertTime, now), now, options.insert.pause,
             alreadyWritten, elapsed, inserted)]
      ensures outcome != Completed ==>
        nextStart == startDate && alreadyWritten == old(alreadyWritten)
        && metrics.insertMetrics == old(metrics.insertMetrics)
      ensures metrics.selectMetrics == old(metrics.selectMetrics) && metrics.updateMetrics == old(metrics.updateMetrics)
      ensures metrics.deleteMetrics == old(metrics.deleteMetrics) && metrics.vacuumMetrics == old(metrics.vacuumMetrics)
    {
      if cancelled {
        return Cancelled, startDate;
      }
      var o := options.insert;
      if DrawFaults(o.minBatchSize, o.maxBatchSize) {
        return Faulted, startDate;
      }
      var itemsToInsert := Range(o.idGenerator, batchSize, startDate, o.step, randomBytes, randomIds);
      if itemsToInsert.None? {
        return Faulted, startDate;
      }
      var records := itemsToInsert.value;
      if records.Length == 0 {
        // `Max` over an empty batch throws.
        return Faulted, startDate;
      }
      var latest := MaxKey(records[..], RecordTime);
      ghost var last := LatestStampOf(batchSize, startDate, o.step);
      forall i | 0 <= i < batchSize
        ensures RecordTime(records[..][i]) <= last
      {
        LatestStamp(batchSize, startDate, o.step, i);
      }
      assert RecordTime(records[..][if o.step >= 0 then batchSize - 1 else 0]) == last;
      assert latest == last;
      nextStart := latest;
      var insertedItems := inserted;
      alreadyWritten := alreadyWritten + insertedItems;
      var currentAlreadyWritten := alreadyWritten;
      metrics.AddInsert(now, o.pause, currentAlreadyWritten, elapsed, insertedItems);
      outcome := Completed;
    }

    /**
     * Turns of the insert loop, one per script entry, until the flag is
     * set or a turn faults.  An entry's `stopRequested` stands for a `Stop`
     * that arrives while that turn runs.
     */
    method RunInsertLoop(script: seq<InsertStep>) returns (performed: nat, faulted: bool, nextStart: DateTime)
      requires forall k :: 0 <= k < |script| ==> ValidInsertStep(options.insert, script[k])
      modifies this, metrics
      ensures performed <= |script|
      ensures old(cancelled) ==> performed == 0 && !faulted
      ensures !faulted && !cancelled ==> performed == |script|
      ensures faulted ==> performed < |script| && !cancelled
      ensures forall k :: 0 <= k < performed - 1 ==> !script[k].stopRequested
      ensures alreadyWritten == old(alreadyWritten) + TotalInserted(script, performed)
      ensures old(metrics.insertMetrics) <= metrics.insertMetrics
      ensures |metrics.insertMetrics| == |old(metrics.insertMetrics)| + performed
      ensures forall i :: |old(metrics.insertMetrics)| <= i < |metrics.insertMetrics| ==>
        metrics.insertMetrics[i].alreadyWrittenItems
          == old(alreadyWritten) + TotalInserted(script, i - |old(metrics.insertMetrics)| + 1)
      ensures forall i :: |old(metrics.insertMetrics)| <= i < |metrics.insertMetrics| ==>
        metrics.insertMetrics[i].actualInsertedItems == script[i - |old(metrics.insertMetrics)|].inserted
      ensures forall i :: |old(metrics.insertMetrics)| <= i < |metrics.insertMetrics| ==>
        metrics.insertMetrics[i].measuredAt == script[i - |old(metrics.insertMetrics)|].now
      ensures options.insert.step >= 0 ==>
        nextStart == options.insert.startDate + TotalBatched(script, performed) * options.insert.step
      ensures metrics.selectMetrics == old(metrics.selectMetrics) && metrics.updateMetrics == old(metrics.updateMetrics)
      ensures metrics.deleteMetrics == old(metrics.deleteMetrics) && metrics.vacuumMetrics == old(metrics.vacuumMetrics)
    {
      var step := options.insert.step;
      var startDate := options.insert.startDate;
      ghost var base, written := |metrics.insertMetrics|, alreadyWritten;
      performed, faulted := 0, false;
      while !cancelled && performed < |script|
        invariant performed <= |script|
        invariant !faulted
        invariant old(cancelled) ==> cancelled && performed == 0
        invariant forall k :: 0 <= k < performed - 1 ==> !script[k].stopRequested
        invariant performed > 0 && script[performed - 1].stopRequested ==> cancelled
        invariant alreadyWritten == old(alreadyWritten) + TotalInserted(script, performed)
        invariant old(metrics.insertMetrics) <= metrics.insertMetrics
        invariant |metrics.insertMetrics| == |old(metrics.insertMetrics)| + performed
        invariant InsertsLogged(metrics.insertMetrics, base, written, script, performed)
        invariant step >= 0 ==> startDate == options.insert.startDate + TotalBatched(script, performed) * step
        invariant metrics.selectMetrics == old(metrics.selectMetrics) && metrics.updateMetrics == old(metrics.updateMetrics)
        invariant metrics.deleteMetrics == old(metrics.deleteMetrics) && metrics.vacuumMetrics == old(metrics.vacuumMetrics)
        decreases |script| - performed
      {
        var s := script[performed];
        ghost var before := metrics.insertMetrics;
        var outcome, next := InsertIteration(startDate, s.batchSize, s.randomBytes, s.randomIds,
                                             s.inserted, s.elapsed, s.now);
        if outcome == Faulted {
          faulted := true;
          break;
        }
        if step >= 0 && outcome == Completed {
          AdvanceStart(options.insert.startDate, TotalBatched(script, performed), s.batchSize, step);
        }
        ghost var entry := NewInsertMetrics(FirstMeasure(before, InsertTime, s.now), s.now,
                                            options.insert.pause, alreadyWritten, s.elapsed, s.inserted);
        assert metrics.insertMetrics == before + [entry];
        InsertsLoggedSnoc(before, base, written, script, performed, entry);
        PrefixSnoc(old(metrics.insertMetrics), before, entry);
        startDate := next;
        performed := performed + 1;
        if s.stopRequested {
          Stop();
        }
      }
      nextStart := startDate;
    }

    /** One turn of `StartSelectLoop`: it reads the counter and appends one select measurement. */
    method SelectIteration(itemsRequiredToSelectCount: int, readItems: nat, elapsed: int, now: int)
      returns (outcome: IterationOutcome)
      requires Drawn(itemsRequiredToSelectCount, options.select.minItemsToSelect, options.select.maxItemsToSelect)
      modifies metrics
      ensures outcome == Cancelled <==> cancelled
      ensures outcome == Completed <==>
        !cancelled && !DrawFaults(options.select.minItemsToSelect, options.select.maxItemsToSelect)
      ensures outcome == Completed ==> metrics.selectMetrics == old(metrics.selectMetrics) + [NewSelectMetrics(
        FirstMeasure(old(metrics.selectMetrics), SelectTime, now), now, options.select.pause,
        alreadyWritten, elapsed, itemsRequiredToSelectCount, readItems)]
      ensures outcome != Completed ==> metrics.selectMetrics == old(metrics.selectMetrics)
      ensures metrics.insertMetrics == old(metrics.insertMetrics) && metrics.updateMetrics == old(metrics.updateMetrics)
      ensures metrics.deleteMetrics == old(metrics.deleteMetrics) && metrics.vacuumMetrics == old(metrics.vacuumMetrics)
    {
      if cancelled {
        return Cancelled;
      }
      var o := options.select;
      if DrawFaults(o.minItemsToSelect, o.maxItemsToSelect) {
        return Faulted;
      }
      var currentAlreadyWritten := alreadyWritten;
      metrics.AddSelect(now, o.pause, currentAlreadyWritten, elapsed, itemsRequiredToSelectCount, readItems);
      outcome := Completed;
    }

    /**
     * One turn of `StartUpdateLoop`: the offset is drawn below the skip
     * policy's bound for the counter read at the start of the turn, then
     * the count to update is drawn.
     */
    method UpdateIteration(offset: int, itemsRequiredToUpdateCount: int, updatedItems: nat,
                           elapsed: int, now: int)
      returns (outcome: IterationOutcome)
      requires Drawn(offset, options.update.minItemsToSkip, options.update.maxItemsToSkip(alreadyWritten))
      requires Drawn(itemsRequiredToUpdateCount, options.update.minItemsToUpdate, options.update.maxItemsToUpdates)
      modifies metrics
      ensures outcome == Cancelled <==> cancelled
      ensures outcome == Completed <==>
        && !cancelled
        && !DrawFaults(options.update.minItemsToSkip, options.update.maxItemsToSkip(alreadyWritten))
        && !DrawFaults(options.update.minItemsToUpdate, options.update.maxItemsToUpdates)
      ensures outcome == Completed ==> metrics.updateMetrics == old(metrics.updateMetrics) + [NewUpdateMetrics(
        FirstMeasure(old(metrics.updateMetrics), UpdateTime, now), now, options.update.pause,
        alreadyWritten, elapsed, offset, itemsRequiredToUpdateCount, updatedItems)]
      ensures outcome != Completed ==> metrics.updateMetrics == old(metrics.updateMetrics)
      ensures metrics.selectMetrics == old(metrics.selectMetrics) && metrics.insertMetrics == old(metrics.insertMetrics)
      ensures metrics.deleteMetrics == old(metrics.deleteMetrics) && metrics.vacuumMetrics == old(metrics.vacuumMetrics)
    {
      if cancelled {
        return Cancelled;
      }
      var o := options.update;
      var maxItemsToSkip := o.maxItemsToSkip(alreadyWritten);
      if DrawFaults(o.minItemsToSkip, maxItemsToSkip) {
        return Faulted;
      }
      if DrawFaults(o.minItemsToUpdate, o.maxItemsToUpdates) {
        return Faulted;
      }
      var currentAlreadyWritten := alreadyWritten;
      metrics.AddUpdate(now, o.pause, currentAlreadyWritten, elapsed, offset, itemsRequiredToUpdateCount,
                        updatedItems);
      outcome := Completed;
    }

    /** One turn of `StartDeleteLoop`: it reads the counter and appends one delete measurement. */
    method DeleteIteration(itemsRequiredToDeleteCount: int, deletedItems: nat, elapsed: int, now: int)
      returns (outcome: IterationOutcome)
      requires Drawn(itemsRequiredToDeleteCount, options.delete.minItemsToDelete, options.delete.maxItemsToDelete)
      modifies metrics
      ensures outcome == Cancelled <==> cancelled
      ensures outcome == Completed <==>
        !cancelled && !DrawFaults(options.delete.minItemsToDelete, options.delete.maxItemsToDelete)
      ensures outcome == Completed ==> metrics.deleteMetrics == old(metrics.deleteMetrics) + [NewDeleteMetrics(
        FirstMeasure(old(metrics.deleteMetrics), DeleteTime, now), now, options.delete.pause,
        alreadyWritten, elapsed, itemsRequiredToDeleteCount, deletedItems)]
      ensures outcome != Completed ==> metrics.deleteMetrics == old(metrics.deleteMetrics)
      ensures metrics.selectMetrics == old(metrics.selectMetrics) && metrics.insertMetrics == old(metrics.insertMetrics)
      ensures metrics.updateMetrics == old(metrics.updateMetrics) && metrics.vacuumMetrics == old(metrics.vacuumMetrics)
    {
      if cancelled {
        return Cancelled;
      }
      var o := options.delete;
      if DrawFaults(o.minItemsToDelete, o.maxItemsToDelete) {
        return Faulted;
      }
      var currentAlreadyWritten := alreadyWritten;
      metrics.AddDelete(now, o.pause, currentAlreadyWritten, elapsed, itemsRequiredToDeleteCount, deletedItems);
      outcome := Completed;
    }

    /** The second half of a vacuum turn: read the counter again and record both readings. */
    method RecordVacuum(alreadyWrittenItemsBeforeVacuum: int, elapsed: int, now: int)
      modifies metrics
      ensures metrics.vacuumMetrics == old(metrics.vacuumMetrics) + [NewVacuumMetrics(
        FirstMeasure(old(metrics.vacuumMetrics), VacuumTime, now), now, options.vacuum.pause,
        alreadyWritten, alreadyWrittenItemsBeforeVacuum, elapsed)]
      ensures metrics.selectMetrics == old(metrics.selectMetrics) && metrics.insertMetrics == old(metrics.insertMetrics)
      ensures metrics.updateMetrics == old(metrics.updateMetrics) && metrics.deleteMetrics == old(metrics.deleteMetrics)
    {
      var currentAlreadyWritten := alreadyWritten;
      metrics.AddVacuum(now, options.vacuum.pause, currentAlreadyWritten, alreadyWrittenItemsBeforeVacuum, elapsed);
    }

    /** One turn of `StartVacuumLoop` with nothing running beside it: both readings agree. */
    method VacuumIteration(elapsed: int, now: int) returns (outcome: IterationOutcome)
      modifies metrics
      ensures outcome == Cancelled <==> cancelled
      ensures outcome == Completed <==> !cancelled
      ensures outcome == Completed ==> metrics.vacuumMetrics == old(metrics.vacuumMetrics) + [NewVacuumMetrics(
        FirstMeasure(old(metrics.vacuumMetrics), VacuumTime, now), now, options.vacuum.pause,
        alreadyWritten, alreadyWritten, elapsed)]
      ensures outcome != Completed ==> metrics.vacuumMetrics == old(metrics.vacuumMetrics)
      ensures metrics.selectMetrics == old(metrics.selectMetrics) && metrics.insertMetrics == old(metrics.insertMetrics)
      ensures metrics.updateMetrics == old(metrics.updateMetrics) && metrics.deleteMetrics == old(metrics.deleteMetrics)
    {
      if cancelled {
        return Cancelled;
      }
      var alreadyWrittenItemsBeforeVacuum := alreadyWritten;
      RecordVacuum(alreadyWrittenItemsBeforeVacuum, elapsed, now);
      outcome := Completed;
    }

    /**
     * A vacuum turn during which one insert turn runs between the two
     * counter readings: since inserts only add non-negative counts, the
     * "before" reading is at most the "after" reading.
     */
    method VacuumOverlappingInsert(s: InsertStep, startDate: DateTime, elapsed: int, now: int)
      returns (outcome: IterationOutcome)
      requires ValidInsertStep(options.insert, s)
      modifies this, metrics
      ensures outcome == Cancelled <==> old(cancelled)
      ensures outcome == Completed ==> old(alreadyWritten) <= alreadyWritten
      ensures outcome == Completed ==>
        && |metrics.vacuumMetrics| == |old(metrics.vacuumMetrics)| + 1
        && old(metrics.vacuumMetrics) <= metrics.vacuumMetrics
        && var v := metrics.vacuumMetrics[|metrics.vacuumMetrics| - 1];
           v.alreadyWrittenItemsBeforeVacuum == old(alreadyWritten) <= v.alreadyWrittenItems == alreadyWritten
      ensures outcome != Completed ==> metrics.vacuumMetrics == old(metrics.vacuumMetrics)
    {
      if cancelled {
        return Cancelled;
      }
      var alreadyWrittenItemsBeforeVacuum := alreadyWritten;
      var _, _ := InsertIteration(startDate, s.batchSize, s.randomBytes, s.randomIds, s.inserted, s.elapsed, s.now);
      RecordVacuum(alreadyWrittenItemsBeforeVacuum, elapsed, now);
      outcome := Completed;
    }

    /** `GetMetricsSnapshot`: the collector's snapshot at clock reading `now`. */
    method GetMetricsSnapshot(now: int) returns (snapshot: MetricsSnapshot)
      ensures snapshot == TakeSnapshot(now, metrics.selectMetrics, metrics.insertMetrics,
                                       metrics.updateMetrics, metrics.deleteMetrics, metrics.vacuumMetrics)
    {
      snapshot := metrics.Snapshot(now);
    }
  }
}
