/**
 * The page and the server together: what the page shows once a fetch
 * delivers the snapshot the server answers with at a given second.
 */
module FeedLink {
  import opened SeqUtil
  import opened CrowdTypes
  import opened CrowdServer
  import opened CrowdManagement

  /** The page state after a fetch that delivered the feed's answer at `second`. */
  function AfterServedFetch(st: ClientState, second: nat): ClientState
  {
    AfterFetch(st, Response(true, Some(SelectSnapshot(second))))
  }

  /**
   * After fetching the feed at `second`, the page shows the main view stamped
   * with that slot's time, offers "All" and the seven buildings, and each
   * building's entry shows exactly that building's reading.
   */
  lemma ServedSnapshotIsShown(st: ClientState, second: nat, c: Controls)
    ensures Render(AfterServedFetch(st, second), c).MainView?
    ensures Render(AfterServedFetch(st, second), c).liveTime == SlotTimestamps[SlotIndex(second)]
    ensures |Render(AfterServedFetch(st, second), c).options| == 8
    ensures forall i :: 0 <= i < 7 ==>
      FilteredData(SelectSnapshot(second), BuildingOptions(SelectSnapshot(second))[i + 1].value)
        == [SelectSnapshot(second)[i]]
  {
    var data := SelectSnapshot(second);
    TableInvariant();
    assert SlotIndex(second) < 3;
    assert data[0].timestamp == SlotTimestamps[SlotIndex(second)];
    assert SlotTimestamps[SlotIndex(second)] != "";
    forall i | 0 <= i < 7
      ensures FilteredData(data, BuildingOptions(data)[i + 1].value) == [data[i]]
    {
      ChoosingOptionShowsItsBuilding(data, i);
    }
  }

  /** Slot 0 predicts 85, 70, 95, 80, 65, 40 and 90: three readings are above 80. */
  lemma HighRiskSlot0()
    ensures |HighRisk(Snapshot0, 80)| == 3
  {
  }

  /** Slot 1 predicts 87, 72, 97, 82, 67, 42 and 92: four readings are above 80. */
  lemma HighRiskSlot1()
    ensures |HighRisk(Snapshot1, 80)| == 4
  {
  }

  /** Slot 2 predicts 90, 75, 99, 85, 70, 45 and 95: four readings are above 80. */
  lemma HighRiskSlot2()
    ensures |HighRisk(Snapshot2, 80)| == 4
  {
  }

  /** With the default controls, the banner shows the high-risk count of the whole served snapshot. */
  lemma DefaultAlertOfSnapshot(st: ClientState, second: nat)
    ensures Render(AfterServedFetch(st, second), InitialControls).alert
         == var n := |HighRisk(SelectSnapshot(second), 80)|; if n > 0 then Some(Alert(n, 80)) else None
  {
    var data := SelectSnapshot(second);
    assert AfterServedFetch(st, second) == ClientState(data, false, None);
    RenderedAlert(ClientState(data, false, None), InitialControls);
  }

  /**
   * With the page's default controls, the alert banner counts 3 buildings in
   * slot 0 (the Library's 80 is not above 80) and 4 in slots 1 and 2.
   */
  lemma DefaultAlertPerSlot(st: ClientState, second: nat)
    ensures Render(AfterServedFetch(st, second), InitialControls).alert
         == Some(Alert(if SlotIndex(second) == 0 then 3 else 4, 80))
  {
    DefaultAlertOfSnapshot(st, second);
    var slot := SlotIndex(second);
    assert SelectSnapshot(second) == CrowdDataSets[slot];
    if slot == 0 {
      HighRiskSlot0();
    } else if slot == 1 {
      HighRiskSlot1();
    } else {
      HighRiskSlot2();
    }
  }
}
