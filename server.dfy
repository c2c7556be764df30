/**
 * The feed server: the fixed rotation of three simulated snapshots, the
 * mapping from the wall-clock second to a rotation slot, and the two
 * handlers that write to the crowd_history table (the GET feed with its
 * best-effort insert loop, and the POST that saves one record).
 *
 * The table itself is abstract: a CrowdHistory object holds the rows that
 * were stored, and every INSERT is given its outcome (stored, or a storage
 * error with a message) as an input, in the order the handler issues them.
 */
module CrowdServer {
  import opened CrowdTypes
  import opened SeqUtil

  /** Slot 0: the readings stamped 09:00:00. */
  const Snapshot0: seq<Reading> := [
    Reading(1, "Faculty Canteen", 60, 85, "#ff6384", "09:00:00"),
    Reading(2, "Lecture Hall 1", 40, 70, "#36a2eb", "09:00:00"),
    Reading(3, "Drawing Office 1", 90, 95, "#cc65fe", "09:00:00"),
    Reading(4, "Library", 75, 80, "#aaff80", "09:00:00"),
    Reading(5, "Lab 1", 50, 65, "#f57c00", "09:00:00"),
    Reading(6, "Lecture Hall 2", 30, 40, "#7cb342", "09:00:00"),
    Reading(7, "Drawing Office 2", 85, 90, "#323cc3ff", "09:00:00")
  ]

  /** Slot 1: the readings stamped 09:00:05. */
  const Snapshot1: seq<Reading> := [
    Reading(1, "Faculty Canteen", 62, 87, "#ff6384", "09:00:05"),
    Reading(2, "Lecture Hall 1", 42, 72, "#36a2eb", "09:00:05"),
    Reading(3, "Drawing Office 1", 92, 97, "#cc65fe", "09:00:05"),
    Reading(4, "Library", 77, 82, "#aaff80", "09:00:05"),
    Reading(5, "Lab 1", 52, 67, "#f57c00", "09:00:05"),
    Reading(6, "Lecture Hall 2", 32, 42, "#7cb342", "09:00:05"),
    Reading(7, "Drawing Office 2", 87, 92, "#323cc3ff", "09:00:05")
  ]

  /** Slot 2: the readings stamped 09:00:10. */
  const Snapshot2: seq<Reading> := [
    Reading(1, "Faculty Canteen", 65, 90, "#ff6384", "09:00:10"),
    Reading(2, "Lecture Hall 1", 45, 75, "#36a2eb", "09:00:10"),
    Reading(3, "Drawing Office 1", 95, 99, "#cc65fe", "09:00:10"),
    Reading(4, "Library", 80, 85, "#aaff80", "09:00:10"),
    Reading(5, "Lab 1", 55, 70, "#f57c00", "09:00:10"),
    Reading(6, "Lecture Hall 2", 35, 45, "#7cb342", "09:00:10"),
    Reading(7, "Drawing Office 2", 90, 95, "#323cc3ff", "09:00:10")
  ]
  /** The rotation the feed cycles through, in slot order. */
  const CrowdDataSets: seq<seq<Reading>> := [Snapshot0, Snapshot1, Snapshot2]

  /** The timestamp carried by every reading of each slot. */
  const SlotTimestamps: seq<string> := ["09:00:00", "09:00:05", "09:00:10"]

  /**
   * The shape every snapshot of the rotation has: seven readings whose ids
   * run 1..7 in order, one shared timestamp and non-negative counts.
   */
  predicate SnapshotShape(snap: seq<Reading>, ts: string)
  {
    |snap| == 7
    && (forall j :: 0 <= j < |snap| ==> snap[j].buildingId == j + 1)
    && (forall j :: 0 <= j < |snap| ==> snap[j].timestamp == ts)
    && (forall j :: 0 <= j < |snap| ==> snap[j].currentCount >= 0 && snap[j].predictedCount >= 0)
  }

  /** The table invariant of the rotation. */
  lemma TableInvariant()
    ensures |CrowdDataSets| == |SlotTimestamps| == 3
    ensures forall i :: 0 <= i < 3 ==> SnapshotShape(CrowdDataSets[i], SlotTimestamps[i])
    ensures forall i :: 0 <= i < 3 ==> DistinctIds(CrowdDataSets[i])
  {
    forall i | 0 <= i < 3
      ensures SnapshotShape(CrowdDataSets[i], SlotTimestamps[i])
    {
      var snap := CrowdDataSets[i];
      assert |snap| == 7;
      forall j | 0 <= j < 7
        ensures snap[j].buildingId == j + 1 && snap[j].timestamp == SlotTimestamps[i]
        ensures snap[j].currentCount >= 0 && snap[j].predictedCount >= 0
      {
        assert i == 0 || i == 1 || i == 2;
        assert j == 0 || j == 1 || j == 2 || j == 3 || j == 4 || j == 5 || j == 6;
      }
    }
  }

  // ----- Slot selection -----

  /**
   * The rotation slot for second-of-minute `second`: a 15-second cycle cut
   * into three 5-second buckets. `second` is non-negative, so Dafny's `%` and
   * `/` agree with JavaScript's `%` followed by Math.floor.
   */
  function SlotIndex(second: nat): (slot: nat)
    ensures slot < |CrowdDataSets|
    ensures 5 * slot <= second % 15 < 5 * slot + 5
  {
    (second % 15) / 5
  }

  /** The slot depends only on the position in the 15-second cycle. */
  lemma SlotPeriodic(second: nat)
    ensures SlotIndex(second + 15) == SlotIndex(second)
  {
    assert (second + 15) % 15 == second % 15;
  }

  /** The slot is the number of the 5-second bucket, taken modulo the three slots. */
  lemma SlotIsBucketModThree(second: nat)
    ensures SlotIndex(second) == (second / 5) % 3
  {
  }

  /**
   * The clock gives the second of the minute, `t % 60` of an absolute second
   * count `t`; because 60 is a multiple of 15 the cycle runs on across the
   * minute boundary, so second 59 (slot 2) is followed by second 0 (slot 0).
   */
  lemma MinuteWrapKeepsCycle(t: nat)
    ensures SlotIndex(t % 60) == SlotIndex(t)
    ensures SlotIndex(59) == 2 && SlotIndex((59 + 1) % 60) == 0
  {
    var q, r := t / 60, t % 60;
    assert t == 15 * (4 * q) + r;
    assert t % 15 == r % 15;
  }

  /** How many of the `len` seconds starting at `start` are mapped to slot `k` by `slotOf`. */
  function CountInWindow(slotOf: nat -> nat, start: nat, len: nat, k: nat): nat
    decreases len
  {
    if len == 0 then 0
    else (if slotOf(start) == k then 1 else 0) + CountInWindow(slotOf, start + 1, len - 1, k)
  }

  lemma {:induction false} CountInWindowSplit(slotOf: nat -> nat, start: nat, m: nat, n: nat, k: nat)
    ensures CountInWindow(slotOf, start, m + n, k)
         == CountInWindow(slotOf, start, m, k) + CountInWindow(slotOf, start + m, n, k)
    decreases m
  {
    if m > 0 {
      CountInWindowSplit(slotOf, start + 1, m - 1, n, k);
    }
  }

  /** A window of seconds that all map to slot `b` counts fully for `b` and not at all for any other slot. */
  lemma {:induction false} CountInBucket(slotOf: nat -> nat, start: nat, len: nat, b: nat, k: nat)
    requires forall s :: start <= s < start + len ==> slotOf(s) == b
    ensures CountInWindow(slotOf, start, len, k) == if k == b then len else 0
    decreases len
  {
    if len > 0 {
      CountInBucket(slotOf, start + 1, len - 1, b, k);
    }
  }

  /** A cycle cut into three 5-second buckets mapped to slots 0, 1, 2 counts each of them 5 times. */
  lemma ThreeBucketCycle(slotOf: nat -> nat, k: nat)
    requires forall s :: 0 <= s < 5 ==> slotOf(s) == 0
    requires forall s :: 5 <= s < 10 ==> slotOf(s) == 1
    requires forall s :: 10 <= s < 15 ==> slotOf(s) == 2
    ensures CountInWindow(slotOf, 0, 15, k) == if k < 3 then 5 else 0
  {
    CountInWindowSplit(slotOf, 0, 5, 10, k);
    CountInWindowSplit(slotOf, 5, 5, 5, k);
    CountInBucket(slotOf, 0, 5, 0, k);
    CountInBucket(slotOf, 5, 5, 1, k);
    CountInBucket(slotOf, 10, 5, 2, k);
  }

  /** Seconds 0..14, one cycle, select each of the three slots exactly 5 times. */
  lemma FirstCycleCounts(k: nat)
    ensures CountInWindow(SlotIndex, 0, 15, k) == if k < 3 then 5 else 0
  {
    assert forall s :: 0 <= s < 5 ==> SlotIndex(s) == 0;
    assert forall s :: 5 <= s < 10 ==> SlotIndex(s) == 1;
    assert forall s :: 10 <= s < 15 ==> SlotIndex(s) == 2;
    ThreeBucketCycle(SlotIndex, k);
  }

  /**
   * For any slot function with period `period`, every window of that length
   * counts each slot as often as the first one does: sliding the window by
   * one second drops a second and adds one that maps to the same slot.
   */
  lemma {:induction false} PeriodicWindowCount(slotOf: nat -> nat, period: nat, start: nat, k: nat)
    requires period > 0
    requires forall s: nat :: slotOf(s + period) == slotOf(s)
    ensures CountInWindow(slotOf, start, period, k) == CountInWindow(slotOf, 0, period, k)
    decreases start
  {
    if start > 0 {
      var prev := start - 1;
      PeriodicWindowCount(slotOf, period, prev, k);
      CountInWindowSplit(slotOf, prev, 1, period - 1, k);
      CountInWindowSplit(slotOf, start, period - 1, 1, k);
      assert slotOf(prev + period) == slotOf(prev);
      assert CountInWindow(slotOf, prev, 1, k) == if slotOf(prev) == k then 1 else 0;
      assert CountInWindow(slotOf, prev + period, 1, k) == if slotOf(prev + period) == k then 1 else 0;
    }
  }

  /** Every run of 15 consecutive seconds, from any start, selects each slot exactly 5 times. */
  lemma FiveSecondsPerSlot(start: nat, k: nat)
    requires k < 3
    ensures CountInWindow(SlotIndex, start, 15, k) == 5
  {
    forall s: nat ensures SlotIndex(s + 15) == SlotIndex(s) {
      SlotPeriodic(s);
    }
    PeriodicWindowCount(SlotIndex, 15, start, k);
    FirstCycleCounts(k);
  }

  /** The snapshot the feed answers with at second-of-minute `second`. */
  function SelectSnapshot(second: nat): (snap: seq<Reading>)
    ensures SnapshotShape(snap, SlotTimestamps[SlotIndex(second)])
    ensures DistinctIds(snap)
  {
    TableInvariant();
    CrowdDataSets[SlotIndex(second)]
  }

  /** Second 7 falls in the second bucket and selects the 09:00:05 snapshot. */
  lemma SecondSevenSelectsMiddleSnapshot()
    ensures SlotIndex(7) == 1
    ensures forall j :: 0 <= j < |SelectSnapshot(7)| ==> SelectSnapshot(7)[j].timestamp == "09:00:05"
  {
  }

  // ----- History table and handlers -----

  /** The outcome the storage layer reports for one INSERT. */
  datatype StoreOutcome = Stored | StoreFailed(message: string)

  /** An HTTP answer: the status code and the JSON body. */
  datatype ReplyBody = Snapshot(readings: seq<Reading>) | Message(message: string) | ErrorBody(error: string)
  datatype Reply = Reply(status: int, body: ReplyBody)

  /**
   * The crowd_history table. `rows` are the stored records, in the order they
   * were stored; `attempts` are all INSERTs issued to it, stored or not.
   */
  class CrowdHistory {
    var rows: seq<HistoryRecord>
    ghost var attempts: seq<HistoryRecord>

    constructor ()
      ensures rows == [] && attempts == []
    {
      rows := [];
      attempts := [];
    }

    /** One INSERT: the row is appended exactly when the storage reports success. */
    method Insert(rec: HistoryRecord, outcome: StoreOutcome) returns (ok: bool)
      modifies this
      ensures ok <==> outcome.Stored?
      ensures attempts == old(attempts) + [rec]
      ensures rows == if ok then old(rows) + [rec] else old(rows)
    {
      attempts := attempts + [rec];
      ok := outcome.Stored?;
      if ok {
        rows := rows + [rec];
      }
    }
  }

  /** The rows that a run of INSERTs, one per reading with the given outcomes, stores. */
  function StoredRows(readings: seq<Reading>, outcomes: seq<StoreOutcome>): (rows: seq<HistoryRecord>)
    requires |outcomes| == |readings|
    ensures |rows| <= |readings|
  {
    if readings == [] then []
    else (if outcomes[0].Stored? then [ToRecord(readings[0])] else [])
         + StoredRows(readings[1..], outcomes[1..])
  }

  /** The number of successful outcomes. */
  function CountStored(outcomes: seq<StoreOutcome>): nat
  {
    if outcomes == [] then 0
    else (if outcomes[0].Stored? then 1 else 0) + CountStored(outcomes[1..])
  }

  lemma {:induction false} StoredRowsAppend(r1: seq<Reading>, o1: seq<StoreOutcome>, r2: seq<Reading>, o2: seq<StoreOutcome>)
    requires |o1| == |r1| && |o2| == |r2|
    ensures StoredRows(r1 + r2, o1 + o2) == StoredRows(r1, o1) + StoredRows(r2, o2)
  {
    if r1 != [] {
      StoredRowsAppend(r1[1..], o1[1..], r2, o2);
      assert (r1 + r2)[1..] == r1[1..] + r2;
      assert (o1 + o2)[1..] == o1[1..] + o2;
    } else {
      assert r1 + r2 == r2 && o1 + o2 == o2;
    }
  }

  /** The positions whose insert succeeded, in increasing order. */
  function SuccessPositions(outcomes: seq<StoreOutcome>): (ps: seq<nat>)
    ensures forall k :: 0 <= k < |ps| ==> ps[k] < |outcomes|
    decreases |outcomes|
  {
    if outcomes == [] then []
    else
      var n := |outcomes| - 1;
      SuccessPositions(outcomes[..n]) + (if outcomes[n].Stored? then [n] else [])
  }

  /** The success positions are in range, strictly increasing, and include every success. */
  lemma {:induction false} SuccessPositionsSpec(outcomes: seq<StoreOutcome>)
    ensures forall k :: 0 <= k < |SuccessPositions(outcomes)| ==> outcomes[SuccessPositions(outcomes)[k]].Stored?
    ensures forall k, l :: 0 <= k < l < |SuccessPositions(outcomes)| ==>
      SuccessPositions(outcomes)[k] < SuccessPositions(outcomes)[l]
    ensures forall i :: 0 <= i < |outcomes| && outcomes[i].Stored? ==> i in SuccessPositions(outcomes)
    decreases |outcomes|
  {
    if outcomes != [] {
      var n := |outcomes| - 1;
      var earlier := outcomes[..n];
      SuccessPositionsSpec(earlier);
      var ps := SuccessPositions(earlier);
      assert SuccessPositions(outcomes) == ps + (if outcomes[n].Stored? then [n] else []);
      assert forall k :: 0 <= k < |ps| ==> earlier[ps[k]] == outcomes[ps[k]];
      assert forall i :: 0 <= i < n ==> earlier[i] == outcomes[i];
    }
  }

  /**
   * The stored rows are exactly the records of the readings at the
   * successful positions, in increasing position order.
   */
  lemma {:induction false} StoredRowsAtSuccesses(readings: seq<Reading>, outcomes: seq<StoreOutcome>)
    requires |outcomes| == |readings|
    ensures |StoredRows(readings, outcomes)| == |SuccessPositions(outcomes)|
    ensures forall k :: 0 <= k < |SuccessPositions(outcomes)| ==>
      StoredRows(readings, outcomes)[k] == ToRecord(readings[SuccessPositions(outcomes)[k]])
    decreases |readings|
  {
    if readings != [] {
      var n := |readings| - 1;
      var before, earlier := readings[..n], outcomes[..n];
      StoredRowsAtSuccesses(before, earlier);
      assert readings == before + [readings[n]];
      assert outcomes == earlier + [outcomes[n]];
      StoredRowsAppend(before, earlier, [readings[n]], [outcomes[n]]);
      assert StoredRows([readings[n]], [outcomes[n]]) == if outcomes[n].Stored? then [ToRecord(readings[n])] else [];
      var ps := SuccessPositions(earlier);
      assert SuccessPositions(outcomes) == ps + (if outcomes[n].Stored? then [n] else []);
      forall k | 0 <= k < |SuccessPositions(outcomes)|
        ensures StoredRows(readings, outcomes)[k] == ToRecord(readings[SuccessPositions(outcomes)[k]])
      {
        if k < |ps| {
          assert before[ps[k]] == readings[ps[k]];
        }
      }
    }
  }

  /** The log grows by exactly as many rows as there were successful inserts. */
  lemma {:induction false} StoredRowsCount(readings: seq<Reading>, outcomes: seq<StoreOutcome>)
    requires |outcomes| == |readings|
    ensures |StoredRows(readings, outcomes)| == CountStored(outcomes) <= |readings|
  {
    if readings != [] {
      StoredRowsCount(readings[1..], outcomes[1..]);
    }
  }

  /** The stored rows are the successful readings' records, in snapshot order. */
  lemma {:induction false} StoredRowsInOrder(readings: seq<Reading>, outcomes: seq<StoreOutcome>)
    requires |outcomes| == |readings|
    ensures IsSubseq(StoredRows(readings, outcomes), Records(readings))
    ensures forall i :: 0 <= i < |readings| && outcomes[i].Stored? ==> ToRecord(readings[i]) in StoredRows(readings, outcomes)
  {
    if readings != [] {
      StoredRowsInOrder(readings[1..], outcomes[1..]);
      var rest := StoredRows(readings[1..], outcomes[1..]);
      var all := Records(readings);
      assert all == [ToRecord(readings[0])] + Records(readings[1..]);
      assert all[1..] == Records(readings[1..]);
      if outcomes[0].Stored? {
        var got := [ToRecord(readings[0])] + rest;
        assert got[0] == all[0] && got[1..] == rest;
        assert StoredRows(readings, outcomes) == got;
        assert IsSubseq(got, all);
      } else {
        assert StoredRows(readings, outcomes) == rest;
        assert IsSubseq(rest, all);
      }
      forall i | 0 <= i < |readings| && outcomes[i].Stored?
        ensures ToRecord(readings[i]) in StoredRows(readings, outcomes)
      {
        if i > 0 {
          assert readings[1..][i - 1] == readings[i] && outcomes[1..][i - 1] == outcomes[i];
        }
      }
    }
  }

  /** When every insert succeeds the log receives every reading, in order; when all fail, nothing. */
  lemma {:induction false} StoredRowsExtremes(readings: seq<Reading>, outcomes: seq<StoreOutcome>)
    requires |outcomes| == |readings|
    ensures (forall i :: 0 <= i < |outcomes| ==> outcomes[i].Stored?) ==> StoredRows(readings, outcomes) == Records(readings)
    ensures (forall i :: 0 <= i < |outcomes| ==> !outcomes[i].Stored?) ==> StoredRows(readings, outcomes) == []
  {
    if readings != [] {
      StoredRowsExtremes(readings[1..], outcomes[1..]);
      assert Records(readings) == [ToRecord(readings[0])] + Records(readings[1..]);
    }
  }

  /** Extending the processed prefix by one reading appends that reading's attempt and, if stored, its row. */
  lemma InsertStep(dataSet: seq<Reading>, outcomes: seq<StoreOutcome>, i: nat)
    requires |outcomes| == |dataSet| && i < |dataSet|
    ensures Records(dataSet[..i + 1]) == Records(dataSet[..i]) + [ToRecord(dataSet[i])]
    ensures StoredRows(dataSet[..i + 1], outcomes[..i + 1])
         == StoredRows(dataSet[..i], outcomes[..i]) + (if outcomes[i].Stored? then [ToRecord(dataSet[i])] else [])
  {
    assert dataSet[..i + 1] == dataSet[..i] + [dataSet[i]];
    assert outcomes[..i + 1] == outcomes[..i] + [outcomes[i]];
    StoredRowsAppend(dataSet[..i], outcomes[..i], [dataSet[i]], [outcomes[i]]);
    RecordsAppend(dataSet[..i], [dataSet[i]]);
  }

  /**
   * The insert loop of GET /api/crowd: each reading is inserted once, in
   * order, with the next outcome; a failed insert is swallowed and the loop
   * goes on.
   */
  method InsertReadings(db: CrowdHistory, dataSet: seq<Reading>, outcomes: seq<StoreOutcome>)
    requires |outcomes| == |dataSet|
    modifies db
    ensures db.attempts == old(db.attempts) + Records(dataSet)
    ensures db.rows == old(db.rows) + StoredRows(dataSet, outcomes)
  {
    var i := 0;
    while i < |dataSet|
      invariant 0 <= i <= |dataSet|
      invariant db.attempts == old(db.attempts) + Records(dataSet[..i])
      invariant db.rows == old(db.rows) + StoredRows(dataSet[..i], outcomes[..i])
    {
      var d := dataSet[i];
      var _ := db.Insert(ToRecord(d), outcomes[i]);
      InsertStep(dataSet, outcomes, i);
      i := i + 1;
    }
    assert dataSet[..i] == dataSet && outcomes[..i] == outcomes;
  }

  /**
   * GET /api/crowd. The answer is the selected snapshot with status 200,
   * fixed before any insert runs; then the snapshot's readings are inserted.
   */
  method GetCrowd(db: CrowdHistory, second: nat, outcomes: seq<StoreOutcome>) returns (reply: Reply)
    requires |outcomes| == |SelectSnapshot(second)|
    modifies db
    ensures reply == Reply(200, Snapshot(SelectSnapshot(second)))
    ensures db.attempts == old(db.attempts) + Records(SelectSnapshot(second))
    ensures db.rows == old(db.rows) + StoredRows(SelectSnapshot(second), outcomes)
  {
    var dataSet := SelectSnapshot(second);
    reply := Reply(200, Snapshot(dataSet));
    InsertReadings(db, dataSet, outcomes);
  }

  /**
   * POST /api/crowd-history: one INSERT of the body's four fields; 201 with a
   * confirmation when it is stored, 500 with the storage error otherwise.
   */
  method PostCrowdHistory(db: CrowdHistory, body: HistoryRecord, outcome: StoreOutcome) returns (reply: Reply)
    modifies db
    ensures db.attempts == old(db.attempts) + [body]
    ensures outcome.Stored? ==> reply == Reply(201, Message("Data saved")) && db.rows == old(db.rows) + [body]
    ensures outcome.StoreFailed? ==> reply == Reply(500, ErrorBody(outcome.message)) && db.rows == old(db.rows)
  {
    var ok := db.Insert(body, outcome);
    if ok {
      reply := Reply(201, Message("Data saved"));
    } else {
      reply := Reply(500, ErrorBody(outcome.message));
    }
  }
}
