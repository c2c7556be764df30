/**
 * The records exchanged by the crowd feed: a building reading as the feed
 * serves it and the page receives it, and a row of the crowd_history table.
 */
module CrowdTypes {

  /**
   * One building's occupancy reading. `color` is a display hint that no logic
   * looks into; `timestamp` is the `HH:MM:SS` label of the snapshot it belongs to.
   */
  datatype Reading = Reading(
    buildingId: nat,
    buildingName: string,
    currentCount: int,
    predictedCount: int,
    color: string,
    timestamp: string)

  /** No two readings of `snap` carry the same building id. */
  predicate DistinctIds(snap: seq<Reading>)
  {
    forall i, j :: 0 <= i < j < |snap| ==> snap[i].buildingId != snap[j].buildingId
  }

  /** A row of the crowd_history table: the four columns an INSERT writes. */
  datatype HistoryRecord = HistoryRecord(
    buildingName: string,
    currentCount: int,
    predictedCount: int,
    timestamp: string)

  /** The history row written for a reading (its id and color are not stored). */
  function ToRecord(d: Reading): (rec: HistoryRecord)
    ensures rec.buildingName == d.buildingName && rec.timestamp == d.timestamp
    ensures rec.currentCount == d.currentCount && rec.predictedCount == d.predictedCount
  {
    HistoryRecord(d.buildingName, d.currentCount, d.predictedCount, d.timestamp)
  }

  /** The history rows for a whole snapshot, one per reading, in snapshot order. */
  function Records(readings: seq<Reading>): (rs: seq<HistoryRecord>)
    ensures |rs| == |readings|
  {
    if readings == [] then [] else [ToRecord(readings[0])] + Records(readings[1..])
  }

  /** Records of a concatenation are the concatenation of the records. */
  lemma {:induction false} RecordsAppend(r1: seq<Reading>, r2: seq<Reading>)
    ensures Records(r1 + r2) == Records(r1) + Records(r2)
  {
    if r1 != [] {
      RecordsAppend(r1[1..], r2);
      assert (r1 + r2)[1..] == r1[1..] + r2;
    } else {
      assert r1 + r2 == r2;
    }
  }
}
