/**
 * The five measurement records (the files under Metrics/Operations).  Each is an immutable value
 * built once; timestamps and durations are ticks.  The insert, select, update
 * and delete records carry the speed figures of `Speed.Compute`, always
 * computed from the count of items the operation actually affected; the
 * vacuum record has no speed figures at all.
 */
module Operations {
  import opened Speed

  datatype InsertMetrics = InsertMetrics(
    measuredAt: int,
    timeSinceFirstMeasure: int,
    sleepInterval: int,
    alreadyWrittenItems: int,
    duration: int,
    actualInsertedItems: int,
    speed: SpeedMetrics)

  datatype SelectMetrics = SelectMetrics(
    measuredAt: int,
    timeSinceFirstMeasure: int,
    sleepInterval: int,
    alreadyWrittenItems: int,
    duration: int,
    itemsRequiredToSelectCount: int,
    actualSelectedItems: int,
    speed: SpeedMetrics)

  datatype UpdateMetrics = UpdateMetrics(
    measuredAt: int,
    timeSinceFirstMeasure: int,
    sleepInterval: int,
    alreadyWrittenItems: int,
    duration: int,
    offset: int,
    itemsRequiredToUpdateCount: int,
    actualUpdatedItems: int,
    speed: SpeedMetrics)

  datatype DeleteMetrics = DeleteMetrics(
    measuredAt: int,
    timeSinceFirstMeasure: int,
    sleepInterval: int,
    alreadyWrittenItems: int,
    duration: int,
    itemsRequiredToDeleteCount: int,
    actualDeletedItems: int,
    speed: SpeedMetrics)

  /** Both counter readings around the vacuum; no rate, since nothing is counted. */
  datatype VacuumMetrics = VacuumMetrics(
    measuredAt: int,
    timeSinceFirstMeasure: int,
    sleepInterval: int,
    alreadyWrittenItems: int,
    alreadyWrittenItemsBeforeVacuum: int,
    duration: int)

  /** The `InsertMetrics` constructor. */
  function NewInsertMetrics(firstMeasure: int, measuredAt: int, sleepInterval: int,
                            alreadyWrittenItems: int, duration: int, actualInsertedItems: int): (m: InsertMetrics)
    ensures m.measuredAt == measuredAt && m.sleepInterval == sleepInterval
    ensures m.alreadyWrittenItems == alreadyWrittenItems && m.duration == duration
    ensures m.actualInsertedItems == actualInsertedItems
    ensures m.measuredAt - m.timeSinceFirstMeasure == firstMeasure
    ensures firstMeasure == measuredAt ==> m.timeSinceFirstMeasure == 0
    ensures firstMeasure <= measuredAt ==> m.timeSinceFirstMeasure >= 0
    ensures m.speed == Compute(duration, actualInsertedItems)
  {
    InsertMetrics(measuredAt, measuredAt - firstMeasure, sleepInterval, alreadyWrittenItems,
                  duration, actualInsertedItems, Compute(duration, actualInsertedItems))
  }

  /** The `SelectMetrics` constructor: the rate follows the rows read, not the rows asked for. */
  function NewSelectMetrics(firstMeasure: int, measuredAt: int, sleepInterval: int,
                            alreadyWrittenItems: int, duration: int,
                            itemsRequiredToSelectCount: int, actualSelectedItems: int): (m: SelectMetrics)
    ensures m.measuredAt == measuredAt && m.sleepInterval == sleepInterval
    ensures m.alreadyWrittenItems == alreadyWrittenItems && m.duration == duration
    ensures m.itemsRequiredToSelectCount == itemsRequiredToSelectCount
    ensures m.actualSelectedItems == actualSelectedItems
    ensures m.measuredAt - m.timeSinceFirstMeasure == firstMeasure
    ensures firstMeasure == measuredAt ==> m.timeSinceFirstMeasure == 0
    ensures firstMeasure <= measuredAt ==> m.timeSinceFirstMeasure >= 0
    ensures m.speed == Compute(duration, actualSelectedItems)
  {
    SelectMetrics(measuredAt, measuredAt - firstMeasure, sleepInterval, alreadyWrittenItems,
                  duration, itemsRequiredToSelectCount, actualSelectedItems,
                  Compute(duration, actualSelectedItems))
  }

  /** The `UpdateMetrics` constructor: the rate follows the rows updated. */
  function NewUpdateMetrics(firstMeasure: int, measuredAt: int, sleepInterval: int,
                            alreadyWrittenItems: int, duration: int, offset: int,
                            itemsRequiredToUpdateCount: int, actualUpdatedItems: int): (m: UpdateMetrics)
    ensures m.measuredAt == measuredAt && m.sleepInterval == sleepInterval
    ensures m.alreadyWrittenItems == alreadyWrittenItems && m.duration == duration
    ensures m.offset == offset
    ensures m.itemsRequiredToUpdateCount == itemsRequiredToUpdateCount
    ensures m.actualUpdatedItems == actualUpdatedItems
    ensures m.measuredAt - m.timeSinceFirstMeasure == firstMeasure
    ensures firstMeasure == measuredAt ==> m.timeSinceFirstMeasure == 0
    ensures firstMeasure <= measuredAt ==> m.timeSinceFirstMeasure >= 0
    ensures m.speed == Compute(duration, actualUpdatedItems)
  {
    UpdateMetrics(measuredAt, measuredAt - firstMeasure, sleepInterval, alreadyWrittenItems,
                  duration, offset, itemsRequiredToUpdateCount, actualUpdatedItems,
                  Compute(duration, actualUpdatedItems))
  }

  /** The `DeleteMetrics` constructor: the rate follows the rows deleted. */
  function NewDeleteMetrics(firstMeasure: int, measuredAt: int, sleepInterval: int,
                            alreadyWrittenItems: int, duration: int,
                            itemsRequiredToDeleteCount: int, actualDeletedItems: int): (m: DeleteMetrics)
    ensures m.measuredAt == measuredAt && m.sleepInterval == sleepInterval
    ensures m.alreadyWrittenItems == alreadyWrittenItems && m.duration == duration
    ensures m.itemsRequiredToDeleteCount == itemsRequiredToDeleteCount
    ensures m.actualDeletedItems == actualDeletedItems
    ensures m.measuredAt - m.timeSinceFirstMeasure == firstMeasure
    ensures firstMeasure == measuredAt ==> m.timeSinceFirstMeasure == 0
    ensures firstMeasure <= measuredAt ==> m.timeSinceFirstMeasure >= 0
    ensures m.speed == Compute(duration, actualDeletedItems)
  {
    DeleteMetrics(measuredAt, measuredAt - firstMeasure, sleepInterval, alreadyWrittenItems,
                  duration, itemsRequiredToDeleteCount, actualDeletedItems,
                  Compute(duration, actualDeletedItems))
  }

  /** The `VacuumMetrics` constructor. */
  function NewVacuumMetrics(firstMeasure: int, measuredAt: int, sleepInterval: int,
                            alreadyWrittenItems: int, alreadyWrittenItemsBeforeVacuum: int,
                            duration: int): (m: VacuumMetrics)
    ensures m.measuredAt == measuredAt && m.sleepInterval == sleepInterval
    ensures m.alreadyWrittenItems == alreadyWrittenItems
    ensures m.alreadyWrittenItemsBeforeVacuum == alreadyWrittenItemsBeforeVacuum
    ensures m.duration == duration
    ensures m.measuredAt - m.timeSinceFirstMeasure == firstMeasure
    ensures firstMeasure == measuredAt ==> m.timeSinceFirstMeasure == 0
    ensures firstMeasure <= measuredAt ==> m.timeSinceFirstMeasure >= 0
  {
    VacuumMetrics(measuredAt, measuredAt - firstMeasure, sleepInterval, alreadyWrittenItems,
                  alreadyWrittenItemsBeforeVacuum, duration)
  }
}
