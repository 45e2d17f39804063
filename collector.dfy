/**
 * BenchmarkMetrics.cs: the append-only store of measurements, one sequence
 * per operation kind.  Each `AddX` builds the new record, copies the current
 * sequence with the record appended and publishes the copy in the field; the
 * clock reading `UtcNow` is the parameter `now`.  `Snapshot` keeps, of each
 * sequence, the entries measured up to its creation time, in time order.
 */
module Collector {
  import opened Ordering
  import opened Operations
  import opened Snapshots

  function SelectTime(m: SelectMetrics): int { m.measuredAt }
  function InsertTime(m: InsertMetrics): int { m.measuredAt }
  function UpdateTime(m: UpdateMetrics): int { m.measuredAt }
  function DeleteTime(m: DeleteMetrics): int { m.measuredAt }
  function VacuumTime(m: VacuumMetrics): int { m.measuredAt }

  /**
   * The first-measure time a new entry is given: the earliest `MeasuredAt`
   * already stored for its kind, or the entry's own time when there is none.
   */
  function FirstMeasure<T>(current: seq<T>, key: T -> int, now: int): (first: int)
    ensures |current| == 0 ==> first == now
    ensures |current| > 0 ==> exists i :: 0 <= i < |current| && key(current[i]) == first
    ensures forall i :: 0 <= i < |current| ==> first <= key(current[i])
  {
    if |current| == 0 then now else MinKey(current, key)
  }

  /** The first-measure time is never later than a clock reading that no stored entry exceeds. */
  lemma FirstMeasureNotLater<T>(current: seq<T>, key: T -> int, now: int)
    ensures (forall i :: 0 <= i < |current| ==> key(current[i]) <= now) ==> FirstMeasure(current, key, now) <= now
  {
    if |current| > 0 && forall i :: 0 <= i < |current| ==> key(current[i]) <= now {
      assert key(current[0]) <= now;
    }
  }

  /** The snapshot of stored sequences at `createdAt` (everything `Snapshot` does but read the clock). */
  function TakeSnapshot(createdAt: int, selects: seq<SelectMetrics>, inserts: seq<InsertMetrics>,
                        updates: seq<UpdateMetrics>, deletes: seq<DeleteMetrics>,
                        vacuums: seq<VacuumMetrics>): (snap: MetricsSnapshot)
    ensures snap.createdAt == createdAt
  {
    MetricsSnapshot(
      createdAt,
      Window(selects, SelectTime, createdAt),
      Window(inserts, InsertTime, createdAt),
      Window(updates, UpdateTime, createdAt),
      Window(deletes, DeleteTime, createdAt),
      Window(vacuums, VacuumTime, createdAt))
  }

  /**
   * Each snapshot sequence holds exactly the stored entries of its kind
   * measured at or before the creation time, sorted by `MeasuredAt`, with
   * entries of equal time in stored order.
   */
  lemma SnapshotIsWindow(createdAt: int, selects: seq<SelectMetrics>, inserts: seq<InsertMetrics>,
                         updates: seq<UpdateMetrics>, deletes: seq<DeleteMetrics>,
                         vacuums: seq<VacuumMetrics>)
    ensures var snap := TakeSnapshot(createdAt, selects, inserts, updates, deletes, vacuums);
      && IsWindowOf(snap.selectMetrics, selects, SelectTime, createdAt)
      && IsWindowOf(snap.insertMetrics, inserts, InsertTime, createdAt)
      && IsWindowOf(snap.updateMetrics, updates, UpdateTime, createdAt)
      && IsWindowOf(snap.deleteMetrics, deletes, DeleteTime, createdAt)
      && IsWindowOf(snap.vacuumMetrics, vacuums, VacuumTime, createdAt)
  {
    WindowIsWindow(selects, SelectTime, createdAt);
    WindowIsWindow(inserts, InsertTime, createdAt);
    WindowIsWindow(updates, UpdateTime, createdAt);
    WindowIsWindow(deletes, DeleteTime, createdAt);
    WindowIsWindow(vacuums, VacuumTime, createdAt);
  }

  /**
   * Snapshots only grow: a snapshot taken no earlier, of stored sequences
   * that extend the earlier ones, holds every entry of the earlier snapshot
   * for the same kind.
   */
  lemma SnapshotMonotone(c1: int, c2: int,
                         selects1: seq<SelectMetrics>, inserts1: seq<InsertMetrics>,
                         updates1: seq<UpdateMetrics>, deletes1: seq<DeleteMetrics>,
                         vacuums1: seq<VacuumMetrics>,
                         selects2: seq<SelectMetrics>, inserts2: seq<InsertMetrics>,
                         updates2: seq<UpdateMetrics>, deletes2: seq<DeleteMetrics>,
                         vacuums2: seq<VacuumMetrics>)
    requires c1 <= c2
    requires selects1 <= selects2 && inserts1 <= inserts2 && updates1 <= updates2
    requires deletes1 <= deletes2 && vacuums1 <= vacuums2
    ensures var snap1 := TakeSnapshot(c1, selects1, inserts1, updates1, deletes1, vacuums1);
            var snap2 := TakeSnapshot(c2, selects2, inserts2, updates2, deletes2, vacuums2);
      && multiset(snap1.selectMetrics) <= multiset(snap2.selectMetrics)
      && multiset(snap1.insertMetrics) <= multiset(snap2.insertMetrics)
      && multiset(snap1.updateMetrics) <= multiset(snap2.updateMetrics)
      && multiset(snap1.deleteMetrics) <= multiset(snap2.deleteMetrics)
      && multiset(snap1.vacuumMetrics) <= multiset(snap2.vacuumMetrics)
  {
    WindowGrows(selects1, selects2, SelectTime, c1, c2);
    WindowGrows(inserts1, inserts2, InsertTime, c1, c2);
    WindowGrows(updates1, updates2, UpdateTime, c1, c2);
    WindowGrows(deletes1, deletes2, DeleteTime, c1, c2);
    WindowGrows(vacuums1, vacuums2, VacuumTime, c1, c2);
  }

  /**
   * When every stored sequence is already in time order and nothing is later
   * than the creation time, the snapshot reproduces the store exactly.
   */
  lemma SnapshotOfOrderedStore(createdAt: int, selects: seq<SelectMetrics>, inserts: seq<InsertMetrics>,
                               updates: seq<UpdateMetrics>, deletes: seq<DeleteMetrics>,
                               vacuums: seq<VacuumMetrics>)
    requires SortedBy(selects, SelectTime) && forall i :: 0 <= i < |selects| ==> selects[i].measuredAt <= createdAt
    requires SortedBy(inserts, InsertTime) && forall i :: 0 <= i < |inserts| ==> inserts[i].measuredAt <= createdAt
    requires SortedBy(updates, UpdateTime) && forall i :: 0 <= i < |updates| ==> updates[i].measuredAt <= createdAt
    requires SortedBy(deletes, DeleteTime) && forall i :: 0 <= i < |deletes| ==> deletes[i].measuredAt <= createdAt
    requires SortedBy(vacuums, VacuumTime) && forall i :: 0 <= i < |vacuums| ==> vacuums[i].measuredAt <= createdAt
    ensures TakeSnapshot(createdAt, selects, inserts, updates, deletes, vacuums)
         == MetricsSnapshot(createdAt, selects, inserts, updates, deletes, vacuums)
  {
    WindowOfOrdered(selects, SelectTime, createdAt);
    WindowOfOrdered(inserts, InsertTime, createdAt);
    WindowOfOrdered(updates, UpdateTime, createdAt);
    WindowOfOrdered(deletes, DeleteTime, createdAt);
    WindowOfOrdered(vacuums, VacuumTime, createdAt);
  }

  class BenchmarkMetrics {
    var selectMetrics: seq<SelectMetrics>
    var insertMetrics: seq<InsertMetrics>
    var updateMetrics: seq<UpdateMetrics>
    var deleteMetrics: seq<DeleteMetrics>
    var vacuumMetrics: seq<VacuumMetrics>

    /** All five sequences start empty (`Array.Empty`). */
    constructor ()
      ensures selectMetrics == [] && insertMetrics == [] && updateMetrics == []
      ensures deleteMetrics == [] && vacuumMetrics == []
    {
      selectMetrics, insertMetrics, updateMetrics := [], [], [];
      deleteMetrics, vacuumMetrics := [], [];
    }

    method AddSelect(now: int, sleepInterval: int, alreadyWrittenItems: int, duration: int,
                     itemsRequiredToSelectCount: int, actualSelectedItems: int)
      modifies this
      ensures selectMetrics == old(selectMetrics) + [NewSelectMetrics(
                FirstMeasure(old(selectMetrics), SelectTime, now), now, sleepInterval,
                alreadyWrittenItems, duration, itemsRequiredToSelectCount, actualSelectedItems)]
      ensures insertMetrics == old(insertMetrics) && updateMetrics == old(updateMetrics)
      ensures deleteMetrics == old(deleteMetrics) && vacuumMetrics == old(vacuumMetrics)
      ensures old(selectMetrics) == [] ==> selectMetrics[0].timeSinceFirstMeasure == 0
      ensures (forall i :: 0 <= i < |old(selectMetrics)| ==> old(selectMetrics)[i].measuredAt <= now)
              ==> selectMetrics[|selectMetrics| - 1].timeSinceFirstMeasure >= 0
    {
      var measuredAt := now;
      var currentMetrics := selectMetrics;
      var firstMeasureDate := measuredAt;
      if |currentMetrics| > 0 {
        firstMeasureDate := MinKey(currentMetrics, SelectTime);
      }
      FirstMeasureNotLater(currentMetrics, SelectTime, measuredAt);
      var m := NewSelectMetrics(firstMeasureDate, measuredAt, sleepInterval, alreadyWrittenItems,
                                duration, itemsRequiredToSelectCount, actualSelectedItems);
      var newMetrics := currentMetrics + [m];
      selectMetrics := newMetrics;
    }

    method AddInsert(now: int, sleepInterval: int, alreadyWrittenItems: int, duration: int,
                     actualInsertedItems: int)
      modifies this
      ensures insertMetrics == old(insertMetrics) + [NewInsertMetrics(
                FirstMeasure(old(insertMetrics), InsertTime, now), now, sleepInterval,
                alreadyWrittenItems, duration, actualInsertedItems)]
      ensures selectMetrics == old(selectMetrics) && updateMetrics == old(updateMetrics)
      ensures deleteMetrics == old(deleteMetrics) && vacuumMetrics == old(vacuumMetrics)
      ensures old(insertMetrics) == [] ==> insertMetrics[0].timeSinceFirstMeasure == 0
      ensures (forall i :: 0 <= i < |old(insertMetrics)| ==> old(insertMetrics)[i].measuredAt <= now)
              ==> insertMetrics[|insertMetrics| - 1].timeSinceFirstMeasure >= 0
    {
      var measuredAt := now;
      var currentMetrics := insertMetrics;
      var firstMeasureDate := measuredAt;
      if |currentMetrics| > 0 {
        firstMeasureDate := MinKey(currentMetrics, InsertTime);
      }
      FirstMeasureNotLater(currentMetrics, InsertTime, measuredAt);
      var m := NewInsertMetrics(firstMeasureDate, measuredAt, sleepInterval, alreadyWrittenItems,
                                duration, actualInsertedItems);
      var newMetrics := currentMetrics + [m];
      insertMetrics := newMetrics;
    }

    method AddUpdate(now: int, sleepInterval: int, alreadyWrittenItems: int, duration: int,
                     offset: int, itemsRequiredToUpdateCount: int, actualUpdatedItems: int)
      modifies this
      ensures updateMetrics == old(updateMetrics) + [NewUpdateMetrics(
                FirstMeasure(old(updateMetrics), UpdateTime, now), now, sleepInterval,
                alreadyWrittenItems, duration, offset, itemsRequiredToUpdateCount, actualUpdatedItems)]
      ensures selectMetrics == old(selectMetrics) && insertMetrics == old(insertMetrics)
      ensures deleteMetrics == old(deleteMetrics) && vacuumMetrics == old(vacuumMetrics)
      ensures old(updateMetrics) == [] ==> updateMetrics[0].timeSinceFirstMeasure == 0
      ensures (forall i :: 0 <= i < |old(updateMetrics)| ==> old(updateMetrics)[i].measuredAt <= now)
              ==> updateMetrics[|updateMetrics| - 1].timeSinceFirstMeasure >= 0
    {
      var measuredAt := now;
      var currentMetrics := updateMetrics;
      var firstMeasureDate := measuredAt;
      if |currentMetrics| > 0 {
        firstMeasureDate := MinKey(currentMetrics, UpdateTime);
      }
      FirstMeasureNotLater(currentMetrics, UpdateTime, measuredAt);
      var m := NewUpdateMetrics(firstMeasureDate, measuredAt, sleepInterval, alreadyWrittenItems,
                                duration, offset, itemsRequiredToUpdateCount, actualUpdatedItems);
      var newMetrics := currentMetrics + [m];
      updateMetrics := newMetrics;
    }

    method AddDelete(now: int, sleepInterval: int, alreadyWrittenItems: int, duration: int,
                     itemsRequiredToDeleteCount: int, actualDeletedItems: int)
      modifies this
      ensures deleteMetrics == old(deleteMetrics) + [NewDeleteMetrics(
                FirstMeasure(old(deleteMetrics), DeleteTime, now), now, sleepInterval,
                alreadyWrittenItems, duration, itemsRequiredToDeleteCount, actualDeletedItems)]
      ensures selectMetrics == old(selectMetrics) && insertMetrics == old(insertMetrics)
      ensures updateMetrics == old(updateMetrics) && vacuumMetrics == old(vacuumMetrics)
      ensures old(deleteMetrics) == [] ==> deleteMetrics[0].timeSinceFirstMeasure == 0
      ensures (forall i :: 0 <= i < |old(deleteMetrics)| ==> old(deleteMetrics)[i].measuredAt <= now)
              ==> deleteMetrics[|deleteMetrics| - 1].timeSinceFirstMeasure >= 0
    {
      var measuredAt := now;
      var currentMetrics := deleteMetrics;
      var firstMeasureDate := measuredAt;
      if |currentMetrics| > 0 {
        firstMeasureDate := MinKey(currentMetrics, DeleteTime);
      }
      FirstMeasureNotLater(currentMetrics, DeleteTime, measuredAt);
      var m := NewDeleteMetrics(firstMeasureDate, measuredAt, sleepInterval, alreadyWrittenItems,
                                duration, itemsRequiredToDeleteCount, actualDeletedItems);
      var newMetrics := currentMetrics + [m];
      deleteMetrics := newMetrics;
    }

    method AddVacuum(now: int, sleepInterval: int, alreadyWrittenItems: int,
                     alreadyWrittenItemsBeforeVacuum: int, duration: int)
      modifies this
      ensures vacuumMetrics == old(vacuumMetrics) + [NewVacuumMetrics(
                FirstMeasure(old(vacuumMetrics), VacuumTime, now), now, sleepInterval,
                alreadyWrittenItems, alreadyWrittenItemsBeforeVacuum, duration)]
      ensures selectMetrics == old(selectMetrics) && insertMetrics == old(insertMetrics)
      ensures updateMetrics == old(updateMetrics) && deleteMetrics == old(deleteMetrics)
      ensures old(vacuumMetrics) == [] ==> vacuumMetrics[0].timeSinceFirstMeasure == 0
      ensures (forall i :: 0 <= i < |old(vacuumMetrics)| ==> old(vacuumMetrics)[i].measuredAt <= now)
              ==> vacuumMetrics[|vacuumMetrics| - 1].timeSinceFirstMeasure >= 0
    {
      var measuredAt := now;
      var currentMetrics := vacuumMetrics;
      var firstMeasureDate := measuredAt;
      if |currentMetrics| > 0 {
        firstMeasureDate := MinKey(currentMetrics, VacuumTime);
      }
      FirstMeasureNotLater(currentMetrics, VacuumTime, measuredAt);
      var m := NewVacuumMetrics(firstMeasureDate, measuredAt, sleepInterval, alreadyWrittenItems,
                                alreadyWrittenItemsBeforeVacuum, duration);
      var newMetrics := currentMetrics + [m];
      vacuumMetrics := newMetrics;
    }

    /** `Snapshot`, with the clock reading `UtcNow` as `createdAt`; no field changes. */
    method Snapshot(createdAt: int) returns (snapshot: MetricsSnapshot)
      ensures snapshot == TakeSnapshot(createdAt, selectMetrics, insertMetrics, updateMetrics,
                                       deleteMetrics, vacuumMetrics)
    {
      var selects, inserts, updates := selectMetrics, insertMetrics, updateMetrics;
      var deletes, vacuums := deleteMetrics, vacuumMetrics;
      var filterSelect := Window(selects, SelectTime, createdAt);
      var filterInsert := Window(inserts, InsertTime, createdAt);
      var filterUpdate := Window(updates, UpdateTime, createdAt);
      var filterDelete := Window(deletes, DeleteTime, createdAt);
      var filterVacuum := Window(vacuums, VacuumTime, createdAt);
      snapshot := MetricsSnapshot(createdAt, filterSelect, filterInsert, filterUpdate,
                                  filterDelete, filterVacuum);
    }
  }
}
