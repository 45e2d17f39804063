/**
 * TestRecord.cs: the records the insert loop writes, and `Range`, which
 * generates a batch of them with timestamps one step apart.  The 64 random
 * payload bytes of each record and the random GUID an id generator draws are
 * inputs; `DateTime` is its tick count.
 */
module Records {
  import opened Wrappers
  import opened Bytes

  /** `DateTime.MaxValue.Ticks` (the last tick of the year 9999). */
  const MaxDateTimeTicks: int := 3_155_378_975_999_999_999

  /** The ticks a `DateTime` can hold; outside this range `DateTime.Add` throws. */
  type DateTime = t: int | 0 <= t <= MaxDateTimeTicks

  /** The number of random bytes behind each payload. */
  const PayloadBytes: int := 64

  /**
   * The `IdGenerator` delegate: a GUID from the record's timestamp and
   * payload.  Generators that draw a random GUID receive that draw as the
   * third argument.
   */
  type IdGenerator = (DateTime, string, Guid) -> Guid

  datatype TestRecord = TestRecord(id: Guid, createdAt: DateTime, payload: string)

  /** The timestamp of record `i` of a batch: `i + 1` steps after the start date. */
  function StampAt(startDate: int, step: int, i: int): int {
    startDate + (i + 1) * step
  }

  /** Every timestamp of a batch of `count` records is a valid `DateTime`. */
  ghost predicate StampsFit(count: int, startDate: int, step: int) {
    forall i :: 0 <= i < count ==> 0 <= StampAt(startDate, step, i) <= MaxDateTimeTicks
  }

  /**
   * `TestRecord.Range`.  `None` stands for the exceptions the loop can raise:
   * a negative count (array allocation) or a timestamp beyond the `DateTime`
   * range (`DateTime.Add`).
   */
  method Range(idGenerator: IdGenerator, count: int, startDate: DateTime, step: int,
               randomBytes: seq<seq<byte>>, randomIds: seq<Guid>)
    returns (result: Option<array<TestRecord>>)
    requires count <= |randomBytes| && count <= |randomIds|
    requires forall i :: 0 <= i < |randomBytes| ==> |randomBytes[i]| == PayloadBytes
    ensures result.Some? <==> count >= 0 && StampsFit(count, startDate, step)
    ensures result.Some? ==> fresh(result.value) && result.value.Length == count
    ensures result.Some? ==> forall i :: 0 <= i < count ==>
      && result.value[i].createdAt == StampAt(startDate, step, i)
      && result.value[i].payload == ToHexString(randomBytes[i])
      && result.value[i].id == idGenerator(result.value[i].createdAt, result.value[i].payload, randomIds[i])
    ensures result.Some? ==> forall i :: 0 < i < count ==>
      result.value[i].createdAt == result.value[i - 1].createdAt + step
    ensures result.Some? ==> forall i :: 0 <= i < count ==> |result.value[i].payload| == 2 * PayloadBytes
  {
    if count < 0 {
      return None;
    }
    var records := new TestRecord[count];
    var date := startDate;
    for i := 0 to count
      invariant date == startDate + i * step
      invariant forall j :: 0 <= j < i ==> 0 <= StampAt(startDate, step, j) <= MaxDateTimeTicks
      invariant forall j :: 0 <= j < i ==>
        && records[j].createdAt == StampAt(startDate, step, j)
        && records[j].payload == ToHexString(randomBytes[j])
        && records[j].id == idGenerator(records[j].createdAt, records[j].payload, randomIds[j])
    {
      var createdAt := date + step;
      if !(0 <= createdAt <= MaxDateTimeTicks) {
        assert createdAt == StampAt(startDate, step, i);
        return None;
      }
      date := createdAt;
      var value := ToHexString(randomBytes[i]);
      var id := idGenerator(createdAt, value, randomIds[i]);
      records[i] := TestRecord(id, createdAt, value);
    }
    return Some(records);
  }

  /**
   * The latest timestamp of a non-empty batch: its last record's when the
   * step is not negative, its first record's otherwise.
   */
  lemma LatestStamp(count: int, startDate: int, step: int, i: int)
    requires 0 <= i < count
    ensures StampAt(startDate, step, i) <= if step >= 0 then StampAt(startDate, step, count - 1)
                                           else StampAt(startDate, step, 0)
  {
    if step >= 0 {
      assert (count - 1 - i) * step >= 0;
    } else {
      assert i * step <= 0;
    }
  }
}
