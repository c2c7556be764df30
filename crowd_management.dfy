/**
 * The crowd-management page: the feed state that each fetch updates, the
 * lists derived from the latest snapshot (the building filter, the
 * high-risk list behind the alert banner, the heat-map cells, the building
 * options) and the choice of which view the page renders.
 *
 * A fetch is given its result as an input: a network error, or an HTTP
 * response with its `ok` flag and its JSON body (None when the body does not
 * parse as a list of readings).
 */
module CrowdManagement {
  import opened SeqUtil
  import opened CrowdTypes

  // ----- String(buildingId) -----

  function DigitChar(d: nat): char
    requires d < 10
  {
    ('0' as int + d) as char
  }

  /** The decimal text of a non-negative integer id, as JavaScript's String() prints ids below 10^21. */
  function IdString(n: nat): (s: string)
    ensures |s| >= 1
    ensures n >= 10 <==> |s| >= 2
    ensures forall i :: 0 <= i < |s| ==> '0' <= s[i] <= '9'
  {
    if n < 10 then [DigitChar(n)] else IdString(n / 10) + [DigitChar(n % 10)]
  }

  /** Two ids print the same exactly when they are the same id. */
  lemma {:induction false} IdStringInjective(a: nat, b: nat)
    ensures IdString(a) == IdString(b) <==> a == b
  {
    var sa, sb := IdString(a), IdString(b);
    if sa == sb {
      if a >= 10 && b >= 10 {
        assert sa[|sa| - 1] == sb[|sb| - 1];
        assert a % 10 == b % 10;
        assert sa[..|sa| - 1] == IdString(a / 10);
        assert sb[..|sb| - 1] == IdString(b / 10);
        IdStringInjective(a / 10, b / 10);
      } else {
        assert a < 10 && b < 10;
        assert sa[0] == sb[0];
      }
    }
  }

  /** No id prints as the "all" sentinel of the building selector. */
  lemma IdStringIsNotAll(n: nat)
    ensures IdString(n) != "all"
  {
    assert "all"[0] == 'a';
  }

  // ----- Derived lists -----

  /** The readings the page shows for the building selector's value. */
  function FilteredData(crowdData: seq<Reading>, selectedBuilding: string): (shown: seq<Reading>)
    ensures selectedBuilding == "all" ==> shown == crowdData
    ensures |shown| <= |crowdData|
    ensures selectedBuilding != "all" ==>
      forall i :: 0 <= i < |shown| ==> shown[i] in crowdData && IdString(shown[i].buildingId) == selectedBuilding
  {
    if selectedBuilding == "all" then crowdData
    else Filter(crowdData, (d: Reading) => IdString(d.buildingId) == selectedBuilding)
  }

  /**
   * "all" shows the snapshot as it is; any other selection shows, in
   * snapshot order, exactly the readings whose id prints as the selection.
   */
  lemma FilteredDataSpec(crowdData: seq<Reading>, selectedBuilding: string)
    ensures selectedBuilding == "all" ==> FilteredData(crowdData, selectedBuilding) == crowdData
    ensures selectedBuilding != "all" ==>
      IsSubseq(FilteredData(crowdData, selectedBuilding), crowdData)
      && (forall i :: 0 <= i < |FilteredData(crowdData, selectedBuilding)| ==>
            IdString(FilteredData(crowdData, selectedBuilding)[i].buildingId) == selectedBuilding)
      && (forall i :: 0 <= i < |crowdData| && IdString(crowdData[i].buildingId) == selectedBuilding ==>
            crowdData[i] in FilteredData(crowdData, selectedBuilding))
  {
    if selectedBuilding != "all" {
      FilterIsSubseq(crowdData, (d: Reading) => IdString(d.buildingId) == selectedBuilding);
    }
  }

  /** With distinct ids, selecting one building shows at most one reading. */
  lemma {:induction false} FilteredAtMostOne(crowdData: seq<Reading>, selectedBuilding: string)
    requires DistinctIds(crowdData)
    requires selectedBuilding != "all"
    ensures |FilteredData(crowdData, selectedBuilding)| <= 1
  {
    var p := (d: Reading) => IdString(d.buildingId) == selectedBuilding;
    if crowdData != [] {
      var rest := crowdData[1..];
      assert DistinctIds(rest) by {
        forall i, j | 0 <= i < j < |rest| ensures rest[i].buildingId != rest[j].buildingId {
          assert rest[i] == crowdData[i + 1] && rest[j] == crowdData[j + 1];
        }
      }
      if p(crowdData[0]) {
        forall i | 0 <= i < |rest| ensures !p(rest[i]) {
          assert rest[i] == crowdData[i + 1];
          IdStringInjective(rest[i].buildingId, crowdData[0].buildingId);
        }
        FilterKeepsNone(rest, p);
      } else {
        FilteredAtMostOne(rest, selectedBuilding);
      }
    }
  }

  /** The readings behind the alert banner: predicted strictly above the threshold. */
  function HighRisk(filteredData: seq<Reading>, threshold: int): (risky: seq<Reading>)
    ensures |risky| <= |filteredData|
    ensures forall i :: 0 <= i < |risky| ==> risky[i] in filteredData && risky[i].predictedCount > threshold
  {
    Filter(filteredData, (d: Reading) => d.predictedCount > threshold)
  }

  /** The high-risk list is the order-preserving subsequence of readings predicted above the threshold. */
  lemma HighRiskSpec(filteredData: seq<Reading>, threshold: int)
    ensures IsSubseq(HighRisk(filteredData, threshold), filteredData)
    ensures forall i :: 0 <= i < |HighRisk(filteredData, threshold)| ==>
      HighRisk(filteredData, threshold)[i].predictedCount > threshold
    ensures forall i :: 0 <= i < |filteredData| && filteredData[i].predictedCount > threshold ==>
      filteredData[i] in HighRisk(filteredData, threshold)
  {
    FilterIsSubseq(filteredData, (d: Reading) => d.predictedCount > threshold);
  }

  /** With the default threshold 80, a reading predicted at 85 raises an alert and one at 80 does not. */
  lemma ThresholdIsStrict(a: Reading, b: Reading)
    requires a.predictedCount == 85 && b.predictedCount == 80
    ensures HighRisk([a, b], 80) == [a]
  {
    assert [a, b][1..] == [b];
    assert [b][1..] == [];
    assert HighRisk([b], 80) == [];
  }

  /** The alert banner is shown exactly when some shown reading is predicted above the threshold. */
  lemma AlertShownIff(filteredData: seq<Reading>, threshold: int)
    ensures |HighRisk(filteredData, threshold)| > 0
        <==> exists i :: 0 <= i < |filteredData| && filteredData[i].predictedCount > threshold
  {
    var r := HighRisk(filteredData, threshold);
    if |r| > 0 {
      assert r[0] in filteredData;
    }
  }

  /** One cell handed to the heat map. */
  datatype HeatCell = HeatCell(buildingId: nat, color: string, count: int)

  /** The heat-map cells: one per shown reading, counting current or predicted occupancy by view mode. */
  function HeatMapData(filteredData: seq<Reading>, viewMode: string): (cells: seq<HeatCell>)
    ensures |cells| == |filteredData|
    ensures forall i :: 0 <= i < |cells| ==>
      cells[i].buildingId == filteredData[i].buildingId && cells[i].color == filteredData[i].color
    ensures forall i :: 0 <= i < |cells| ==>
      cells[i].count == if viewMode == "current" then filteredData[i].currentCount else filteredData[i].predictedCount
  {
    seq(|filteredData|, i requires 0 <= i < |filteredData| =>
      var d := filteredData[i];
      HeatCell(d.buildingId, d.color, if viewMode == "current" then d.currentCount else d.predictedCount))
  }

  /** The "Live Data Time" label: the first reading's timestamp, or "--:--" when there is none or it is empty. */
  function LiveTime(crowdData: seq<Reading>): (text: string)
    ensures crowdData != [] && crowdData[0].timestamp != "" ==> text == crowdData[0].timestamp
    ensures crowdData == [] || crowdData[0].timestamp == "" ==> text == "--:--"
  {
    if crowdData != [] && crowdData[0].timestamp != "" then crowdData[0].timestamp else "--:--"
  }

  /** One entry of the building selector: the value it sets and the label it shows. */
  datatype BuildingOption = BuildingOption(value: string, caption: string)

  /** The building selector: "All" first, then one entry per reading, in snapshot order. */
  function BuildingOptions(crowdData: seq<Reading>): (options: seq<BuildingOption>)
    ensures |options| == |crowdData| + 1
    ensures options[0] == BuildingOption("all", "All")
    ensures forall i :: 0 <= i < |crowdData| ==>
      options[i + 1] == BuildingOption(IdString(crowdData[i].buildingId), crowdData[i].buildingName)
  {
    [BuildingOption("all", "All")]
      + seq(|crowdData|, i requires 0 <= i < |crowdData| =>
          BuildingOption(IdString(crowdData[i].buildingId), crowdData[i].buildingName))
  }

  /**
   * Choosing an entry of the selector shows what it names: the first entry
   * shows every reading, the entry of reading `i` shows that reading alone
   * when the ids are distinct.
   */
  lemma {:induction false} ChoosingOptionShowsItsBuilding(crowdData: seq<Reading>, i: nat)
    requires DistinctIds(crowdData)
    requires i < |crowdData|
    ensures FilteredData(crowdData, BuildingOptions(crowdData)[0].value) == crowdData
    ensures FilteredData(crowdData, BuildingOptions(crowdData)[i + 1].value) == [crowdData[i]]
  {
    var sel := IdString(crowdData[i].buildingId);
    var p := (d: Reading) => IdString(d.buildingId) == sel;
    IdStringIsNotAll(crowdData[i].buildingId);
    forall j | 0 <= j < |crowdData| && j != i ensures !p(crowdData[j]) {
      assert crowdData[j].buildingId != crowdData[i].buildingId;
      IdStringInjective(crowdData[j].buildingId, crowdData[i].buildingId);
    }
    FilterSingleMatch(crowdData, p, i);
  }

  // ----- Feed state -----

  const LoadErrorMessage := "Error loading crowd data"
  const LoadingMessage := "Loading crowd data..."

  /** The page's state as its three state hooks hold it. */
  datatype ClientState = ClientState(crowdData: seq<Reading>, loading: bool, error: Option<string>)

  const InitialState := ClientState([], true, None)

  /** The outcome of one `fetch` of the feed. */
  datatype FetchResult = NetworkError | Response(ok: bool, json: Option<seq<Reading>>)

  /** The fetch produced data: the response was ok and its body parsed. */
  predicate Delivered(result: FetchResult): (delivered: bool)
    ensures !delivered <==> result.NetworkError? || !result.ok || result.json.None?
  {
    result.Response? && result.ok && result.json.Some?
  }

  /** The state once a fetch has completed: the error is cleared first, then data or error is recorded. */
  function AfterFetch(st: ClientState, result: FetchResult): (next: ClientState)
    ensures !next.loading
    ensures next.error.None? <==> Delivered(result)
    ensures Delivered(result) ==> next.crowdData == result.json.value
    ensures !Delivered(result) ==> next.crowdData == st.crowdData && next.error == Some(LoadErrorMessage)
  {
    if Delivered(result) then ClientState(result.json.value, false, None)
    else ClientState(st.crowdData, false, Some(LoadErrorMessage))
  }

  /** The state after the poller's fetches complete, one after another, with the given results. */
  function Run(st: ClientState, results: seq<FetchResult>): (final: ClientState)
    ensures results == [] ==> final == st
    ensures results != [] ==> !final.loading
    ensures results != [] ==> (final.error.None? <==> Delivered(results[|results| - 1]))
    decreases |results|
  {
    if results == [] then st
    else AfterFetch(Run(st, results[..|results| - 1]), results[|results| - 1])
  }

  /** A run in which no fetch delivers keeps the data held before in state; no failure clears it. */
  lemma {:induction false} RunWithoutDeliveryKeepsData(st: ClientState, results: seq<FetchResult>)
    requires forall j :: 0 <= j < |results| ==> !Delivered(results[j])
    ensures Run(st, results).crowdData == st.crowdData
    decreases |results|
  {
    if results != [] {
      RunWithoutDeliveryKeepsData(st, results[..|results| - 1]);
    }
  }

  /**
   * After a run, the data held is that of the last fetch that delivered,
   * whatever failures followed it.
   */
  lemma {:induction false} RunShowsLastDelivered(st: ClientState, results: seq<FetchResult>, j: nat)
    requires j < |results| && Delivered(results[j])
    requires forall k :: j < k < |results| ==> !Delivered(results[k])
    ensures Run(st, results).crowdData == results[j].json.value
    decreases |results|
  {
    var n := |results| - 1;
    if j < n {
      var prefix := results[..n];
      assert prefix[j] == results[j];
      assert forall k :: j < k < |prefix| ==> prefix[k] == results[k];
      RunShowsLastDelivered(st, prefix, j);
    }
  }

  /**
   * `loading` is true only until the first fetch completes and never becomes
   * true again; after a fetch the error is cleared exactly when it delivered.
   */
  lemma RunStatus(st: ClientState, results: seq<FetchResult>)
    ensures Run(st, results).loading == (st.loading && results == [])
    ensures results != [] ==>
      Run(st, results).error == if Delivered(results[|results| - 1]) then None else Some(LoadErrorMessage)
  {
  }

  // ----- Rendering -----

  /** The user's controls: view mode, building selection and warning threshold. */
  datatype Controls = Controls(viewMode: string, selectedBuilding: string, threshold: int)

  const InitialControls := Controls("current", "all", 80)

  /** The alert banner: how many buildings, above which threshold. */
  datatype Alert = Alert(count: nat, threshold: int)

  /** What the page renders. */
  datatype Screen =
    | LoadingView(message: string)
    | ErrorView(message: string)
    | MainView(liveTime: string, alert: Option<Alert>, options: seq<BuildingOption>,
               heatMap: seq<HeatCell>, charts: seq<Reading>)

  /** JavaScript truthiness of the error state. */
  predicate ErrorSet(error: Option<string>): (shown: bool)
    ensures error.None? ==> !shown
    ensures error.Some? ==> (shown <==> |error.value| > 0)
  {
    error.Some? && error.value != ""
  }

  /** The view the page renders: loading wins over the error, the error over the main view. */
  function Render(st: ClientState, c: Controls): (screen: Screen)
    ensures screen.LoadingView? <==> st.loading
    ensures screen.ErrorView? <==> !st.loading && ErrorSet(st.error)
    ensures screen.MainView? <==> !st.loading && !ErrorSet(st.error)
  {
    var filtered := FilteredData(st.crowdData, c.selectedBuilding);
    var highRisk := HighRisk(filtered, c.threshold);
    if st.loading then LoadingView(LoadingMessage)
    else if ErrorSet(st.error) then ErrorView(st.error.value)
    else MainView(
      LiveTime(st.crowdData),
      if |highRisk| > 0 then Some(Alert(|highRisk|, c.threshold)) else None,
      BuildingOptions(st.crowdData),
      HeatMapData(filtered, c.viewMode),
      filtered)
  }

  /** In the main view, the banner reports the high-risk readings of the filtered data, if there are any. */
  lemma RenderedAlert(st: ClientState, c: Controls)
    requires !st.loading && !ErrorSet(st.error)
    ensures Render(st, c).alert ==
      var n := |HighRisk(FilteredData(st.crowdData, c.selectedBuilding), c.threshold)|;
      if n > 0 then Some(Alert(n, c.threshold)) else None
  {
  }

  /**
   * The main view's banner appears exactly when a shown reading is
   * predicted above the threshold, and counts the high-risk readings.
   */
  lemma AlertBannerIff(st: ClientState, c: Controls)
    requires Render(st, c).MainView?
    ensures Render(st, c).alert.Some? <==>
      exists i :: 0 <= i < |FilteredData(st.crowdData, c.selectedBuilding)|
                  && FilteredData(st.crowdData, c.selectedBuilding)[i].predictedCount > c.threshold
    ensures Render(st, c).alert.Some? ==>
      Render(st, c).alert.value == Alert(|HighRisk(FilteredData(st.crowdData, c.selectedBuilding), c.threshold)|, c.threshold)
  {
    RenderedAlert(st, c);
    AlertShownIff(FilteredData(st.crowdData, c.selectedBuilding), c.threshold);
  }

  /**
   * The view mode only changes the heat-map counts: alerts, options, live
   * time, charts and the heat map's ids and colors are the same in either mode.
   */
  lemma AlertsIgnoreViewMode(st: ClientState, c: Controls, mode: string)
    requires Render(st, c).MainView?
    ensures Render(st, c.(viewMode := mode)).MainView?
    ensures Render(st, c.(viewMode := mode)).alert == Render(st, c).alert
    ensures Render(st, c.(viewMode := mode)).liveTime == Render(st, c).liveTime
    ensures Render(st, c.(viewMode := mode)).options == Render(st, c).options
    ensures Render(st, c.(viewMode := mode)).charts == Render(st, c).charts
    ensures |Render(st, c.(viewMode := mode)).heatMap| == |Render(st, c).heatMap|
    ensures forall i :: 0 <= i < |Render(st, c).heatMap| ==>
      Render(st, c.(viewMode := mode)).heatMap[i].buildingId == Render(st, c).heatMap[i].buildingId
    ensures forall i :: 0 <= i < |Render(st, c).heatMap| ==>
      Render(st, c.(viewMode := mode)).heatMap[i].color == Render(st, c).heatMap[i].color
  {
  }

  /** A failed fetch shows the error view (with its retry), keeping the data for after the retry. */
  lemma FailedFetchShowsError(st: ClientState, result: FetchResult, c: Controls)
    requires !Delivered(result)
    ensures Render(AfterFetch(st, result), c) == ErrorView(LoadErrorMessage)
    ensures AfterFetch(st, result).crowdData == st.crowdData
  {
  }

  /**
   * A run whose last fetch failed ends on the error view, whatever it
   * delivered before: the data kept in state is not on screen.
   */
  lemma FailedRunShowsError(st: ClientState, results: seq<FetchResult>, c: Controls)
    requires results != [] && !Delivered(results[|results| - 1])
    ensures Render(Run(st, results), c) == ErrorView(LoadErrorMessage)
  {
  }

  /** A delivered fetch shows the main view over the received data. */
  lemma DeliveredFetchShowsData(st: ClientState, result: FetchResult, c: Controls)
    requires Delivered(result)
    ensures Render(AfterFetch(st, result), c).MainView?
    ensures Render(AfterFetch(st, result), c).liveTime == LiveTime(result.json.value)
    ensures Render(AfterFetch(st, result), c).charts == FilteredData(result.json.value, c.selectedBuilding)
  {
  }

  // ----- The page component -----

  /** The page's state hooks and the `fetchData` handler that updates them. */
  class CrowdFeed {
    var crowdData: seq<Reading>
    var loading: bool
    var error: Option<string>

    function State(): ClientState
      reads this
    {
      ClientState(crowdData, loading, error)
    }

    constructor ()
      ensures State() == InitialState
    {
      crowdData := [];
      loading := true;
      error := None;
    }

    /** The first step of a fetch: the error is cleared, nothing else changes. */
    method BeginFetch()
      modifies this
      ensures error == None
      ensures crowdData == old(crowdData) && loading == old(loading)
    {
      error := None;
    }

    /**
     * The fetch's completion: delivered data replaces the old data; any
     * failure (network error, response not ok, body not parsed) records the
     * error and keeps the old data. Loading ends either way.
     */
    method CompleteFetch(result: FetchResult)
      modifies this
      ensures !loading
      ensures Delivered(result) ==> crowdData == result.json.value && error == old(error)
      ensures !Delivered(result) ==> crowdData == old(crowdData) && error == Some(LoadErrorMessage)
    {
      match result
      case NetworkError =>
        error := Some(LoadErrorMessage);
        loading := false;
      case Response(ok, json) =>
        if !ok {
          error := Some(LoadErrorMessage);
          loading := false;
        } else {
          match json
          case None =>
            error := Some(LoadErrorMessage);
            loading := false;
          case Some(data) =>
            crowdData := data;
            loading := false;
        }
    }

    /** `fetchData`: clear the error, then record the result. */
    method Fetch(result: FetchResult)
      modifies this
      ensures State() == AfterFetch(old(State()), result)
    {
      BeginFetch();
      CompleteFetch(result);
    }

    /** The poller: the mount-time fetch and each interval's fetch, completing in turn. */
    method RunPoller(results: seq<FetchResult>)
      modifies this
      ensures State() == Run(old(State()), results)
    {
      var i := 0;
      while i < |results|
        invariant 0 <= i <= |results|
        invariant State() == Run(old(State()), results[..i])
      {
        Fetch(results[i]);
        assert results[..i + 1][..i] == results[..i];
        i := i + 1;
      }
      assert results[..i] == results;
    }
  }
}
