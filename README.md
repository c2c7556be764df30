# Crowd feed: slot rotation, history log and page state

A Dafny model of the live crowd feed of a campus occupancy dashboard.

- **Server** (`server.js`): the feed serves one of three fixed snapshots of seven building readings. The snapshot is chosen from the wall-clock second as `floor((s % 15) / 5)`. After answering, the feed inserts each reading of that snapshot into the `crowd_history` table one at a time, and it swallows a failed insert. A POST saves one record and answers 201, or 500 when storage fails.
- **Page** (`src/pages/CrowdManagement.js`): the page keeps `crowdData`, `loading` and `error` state, and `fetchData` updates it. From the latest snapshot it derives several views:
  - the building filter;
  - the list of readings predicted above the warning threshold, which drives the alert banner;
  - the heat-map cells, which show current or predicted counts according to the view mode;
  - the "Live Data Time" label;
  - the building selector's options.

Files:

- `seq_util.dfy` (`SeqUtil`): `Option`, the order-preserving `Filter` that `Array.prototype.filter` performs, and the subsequence relation `IsSubseq`.
- `crowd_types.dfy` (`CrowdTypes`): `Reading` (buildingId, buildingName, currentCount, predictedCount, color, timestamp) and `HistoryRecord`, the four columns an INSERT writes.
- `server.dfy` (`CrowdServer`): the `crowdDataSets` table and `SlotIndex`/`SelectSnapshot`. It also holds the `CrowdHistory` class, whose `rows` are the stored records and whose ghost `attempts` are every INSERT issued, and the two handlers `GetCrowd` and `PostCrowdHistory`. Storage is abstract: each INSERT receives its outcome (`Stored` or `StoreFailed(message)`) as an input.
- `crowd_management.dfy` (`CrowdManagement`): the derived lists as sequence functions, `Render` (which view the page shows) and the pure state transition `AfterFetch`/`Run`. The `CrowdFeed` class holds the three state hooks. Its `Fetch` method is `fetchData`, and `RunPoller` applies a sequence of completed fetches one at a time.
- `feed_link.dfy` (`FeedLink`): what the page shows after it fetches the snapshot the server serves at a given second.

What the code does not do, and so the model does not either:
- The POST handler inserts whatever body it gets. It does not validate the body, so it never answers 400.
- The cycle length (15) and the slot count (3) are hard-coded.
- The page has no search box, no suggestions and no guard against late responses.

## Model

| member | source | states |
|---|---|---|
| `CrowdServer.TableInvariant` | server.js:20-51 | The rotation has 3 snapshots. Snapshot `i` has 7 readings, with ids 1..7 in order (so distinct). All of them carry the timestamp `09:00:00`, `09:00:05` or `09:00:10` for i = 0, 1, 2, and every count is non-negative. |
| `CrowdServer.SlotIndex` | server.js:56-57 | The slot is below the table's length (in {0,1,2}), so indexing the table never fails. Its second lies in the slot's 5-second bucket of the 15-second cycle: `5*slot <= s % 15 < 5*slot + 5`. |
| `CrowdServer.SlotPeriodic` | server.js:57 | The slot has period 15: `SlotIndex(s + 15) == SlotIndex(s)`. |
| `CrowdServer.SlotIsBucketModThree` | server.js:57 | An independent characterisation: the slot is the number of the 5-second bucket modulo 3, `(s / 5) % 3`. |
| `CrowdServer.MinuteWrapKeepsCycle` | server.js:55-57 | Taking the second of the minute (`t % 60`) does not change the slot, because 60 is a multiple of 15. Second 59 gives slot 2 and the next second, 0, gives slot 0. |
| `CrowdServer.FirstCycleCounts` | server.js:57 | Seconds 0..14 select each of slots 0, 1 and 2 exactly 5 times and no other slot. |
| `CrowdServer.ThreeBucketCycle` | server.js:57 | Any slot function that is constant on the three 5-second buckets 0..4, 5..9 and 10..14, with values 0, 1 and 2, selects each of those slots 5 times in seconds 0..14 and no other slot. |
| `CrowdServer.PeriodicWindowCount` | server.js:57 | For a slot function with period `p`, any `p` consecutive seconds select each slot as often as seconds `0..p-1` do. |
| `CrowdServer.FiveSecondsPerSlot` | server.js:57 | Every run of 15 consecutive seconds, from any start, selects each slot exactly 5 times. |
| `CrowdServer.SelectSnapshot` | server.js:57-58 | The snapshot served at any second has the table's shape: 7 readings, ids 1..7, distinct ids, non-negative counts. All its readings carry the timestamp of the selected slot. |
| `CrowdServer.SecondSevenSelectsMiddleSnapshot` | server.js:56-58 | Second 7 selects slot 1, whose readings are all stamped `09:00:05`. |
| `CrowdTypes.ToRecord` | server.js:64-67 | The INSERT writes the reading's name, current count, predicted count and timestamp unchanged. Its id and color are not stored. |
| `CrowdServer.CrowdHistory.constructor` | server.js:11-17 | The history log starts with no rows and no issued INSERTs. Rows already in the database are not modelled. |
| `CrowdServer.CrowdHistory.Insert` | server.js:64-67 | One INSERT is issued. The row is appended exactly when storage reports success, and the log is unchanged otherwise. |
| `CrowdServer.StoredRows` | server.js:62-72 | The rows the insert loop stores for a snapshot, given one outcome per reading. They are never more than the readings. |
| `CrowdServer.SuccessPositions` | server.js:62-72 | The positions whose insert succeeded, in increasing order. Every listed position is a valid index into the snapshot. |
| `CrowdServer.SuccessPositionsSpec` | server.js:62-72 | Every listed position succeeded, the list is strictly increasing, and every successful position is listed. |
| `CrowdServer.StoredRowsAtSuccesses` | server.js:62-72 | The stored rows are exactly the records of the readings at the successful positions, in increasing position order. This holds even when two readings have equal records. |
| `CrowdServer.StoredRowsCount` | server.js:62-72 | The log grows by exactly the number of successful inserts, which is at most the snapshot size. |
| `CrowdServer.StoredRowsInOrder` | server.js:62-72 | The appended rows are an order-preserving subsequence of the snapshot's records. The record of every reading whose insert succeeded is among them. |
| `CrowdServer.StoredRowsExtremes` | server.js:62-72 | If every insert succeeds, the log receives every reading's record in snapshot order. If every insert fails, it receives nothing. |
| `CrowdServer.InsertStep` | server.js:62-72 | Handling one more reading extends the issued INSERTs by that reading's record. It extends the stored rows by that record exactly when its insert succeeded. |
| `CrowdServer.InsertReadings` | server.js:62-72 | The loop issues one INSERT per reading in snapshot order (`attempts` grows by the snapshot's records), and a failed insert does not stop it. The rows grow by exactly the records whose insert succeeded. |
| `CrowdServer.GetCrowd` | server.js:54-73 | The reply is status 200 with exactly the selected snapshot, whatever the storage outcomes are. Each reading is inserted exactly once, in snapshot order (`attempts` grows by the snapshot's records). The stored rows grow by exactly the successful ones. |
| `CrowdServer.PostCrowdHistory` | server.js:76-87 | One INSERT of the body. On success the reply is 201 `Data saved` and exactly that record is appended. On storage failure the reply is 500 with the storage error, and the rows are unchanged. |
| `SeqUtil.Filter` | src/pages/CrowdManagement.js:58 | The result is no longer than the input. It holds only elements of the input that satisfy the predicate, and every satisfying element of the input appears in it. |
| `SeqUtil.FilterIsSubseq` | src/pages/CrowdManagement.js:58 | A filter's result is an order-preserving subsequence of its input. |
| `SeqUtil.FilterMultiplicity` | src/pages/CrowdManagement.js:58 | A filter keeps every occurrence of a matching element and no occurrence of any other. |
| `CrowdManagement.IdString` | src/pages/CrowdManagement.js:58 | `String(buildingId)` is a non-empty string of decimal digits. It has two or more digits exactly when the id is at least 10. |
| `CrowdManagement.IdStringInjective` | src/pages/CrowdManagement.js:58 | Two ids print the same exactly when they are equal, so comparing printed ids compares ids. |
| `CrowdManagement.IdStringIsNotAll` | src/pages/CrowdManagement.js:56-58 | No id prints as the `"all"` sentinel. |
| `CrowdManagement.FilteredData` | src/pages/CrowdManagement.js:55-58 | With `"all"` the result is `crowdData` itself. Any other value gives readings of `crowdData` whose `String(buildingId)` equals it, never more than `crowdData` holds. |
| `CrowdManagement.FilteredDataSpec` | src/pages/CrowdManagement.js:55-58 | With `"all"` the filtered data is `crowdData` exactly. Otherwise it is the order-preserving subsequence of the readings whose printed id equals the selection, and it contains every such reading. |
| `CrowdManagement.FilteredAtMostOne` | src/pages/CrowdManagement.js:55-58 | When ids are distinct, selecting one building shows at most one reading. |
| `CrowdManagement.HighRisk` | src/pages/CrowdManagement.js:61-63 | The high-risk list holds only readings of the filtered data predicted strictly above the threshold, and is no longer than it. |
| `CrowdManagement.HighRiskSpec` | src/pages/CrowdManagement.js:61-63 | The high-risk list is the order-preserving subsequence of the filtered data with `predictedCount > threshold` (strict). Every such reading is in it. |
| `CrowdManagement.ThresholdIsStrict` | src/pages/CrowdManagement.js:61-63 | With threshold 80, a reading predicted at 85 is in the list and one predicted at 80 is not. |
| `CrowdManagement.AlertShownIff` | src/pages/CrowdManagement.js:87 | The high-risk list is non-empty exactly when some shown reading is predicted above the threshold. |
| `CrowdManagement.HeatMapData` | src/pages/CrowdManagement.js:130-134 | There is one cell per filtered reading, with the same buildingId and color. Its count is `currentCount` when the mode is `"current"` and `predictedCount` for any other mode. |
| `CrowdManagement.LiveTime` | src/pages/CrowdManagement.js:83 | The label is the first reading's timestamp. It is `"--:--"` when there is no reading or the timestamp is empty, since the logical-or fallback also replaces an empty string. |
| `CrowdManagement.BuildingOptions` | src/pages/CrowdManagement.js:118-123 | The first option is `"all"`/`All`, followed by one option per reading in data order, each carrying the printed id and the building name. |
| `CrowdManagement.ChoosingOptionShowsItsBuilding` | src/pages/CrowdManagement.js:113-123 | When ids are distinct, choosing the first option shows all readings, and choosing reading `i`'s option shows exactly `[crowdData[i]]`. |
| `CrowdManagement.Delivered` | src/pages/CrowdManagement.js:43-45 | A fetch fails exactly when the network call throws, the response is not ok, or the body does not parse. |
| `CrowdManagement.AfterFetch` | src/pages/CrowdManagement.js:40-52 | After a fetch, `loading` is false. The error is cleared exactly when the fetch delivered. A delivered fetch replaces the data with the received readings. A failed one keeps the data and records the load-error message. |
| `CrowdManagement.Run` | src/pages/CrowdManagement.js:34-52 | An empty run leaves the state as it was. After a non-empty run `loading` is false, and the error is clear exactly when the last fetch delivered. |
| `CrowdManagement.RunWithoutDeliveryKeepsData` | src/pages/CrowdManagement.js:48-50 | If no fetch in a run delivers, the data held before is kept in state. The page shows the error view until a later fetch clears the error. |
| `CrowdManagement.RunShowsLastDelivered` | src/pages/CrowdManagement.js:40-52 | After any run of fetches, the data held in state is that of the last fetch that delivered, whatever failures followed it. |
| `CrowdManagement.RunStatus` | src/pages/CrowdManagement.js:23-50 | `loading` is true only until the first fetch completes and never becomes true again. After a fetch the error is cleared exactly when that fetch delivered, and otherwise holds the load-error message. |
| `CrowdManagement.ErrorSet` | src/pages/CrowdManagement.js:66 | JavaScript truthiness of the error: no error and the empty message are falsy, and any other message is truthy. |
| `CrowdManagement.Render` | src/pages/CrowdManagement.js:65-66 | The loading view appears exactly when loading. The error view appears exactly when not loading and the error is set. The main view appears otherwise. |
| `CrowdManagement.RenderedAlert` | src/pages/CrowdManagement.js:87-93 | In the main view the alert is present exactly when the high-risk list of the filtered data is non-empty, and it then carries that list's length and the threshold. |
| `CrowdManagement.AlertBannerIff` | src/pages/CrowdManagement.js:87-93 | In the main view the banner appears exactly when a shown reading is predicted above the threshold. It reports the high-risk count and the threshold. |
| `CrowdManagement.AlertsIgnoreViewMode` | src/pages/CrowdManagement.js:130-134 | Changing the view mode leaves the following unchanged: the alert, live time, options, chart data, and the heat map's length, ids and colors. |
| `CrowdManagement.FailedFetchShowsError` | src/pages/CrowdManagement.js:44-66 | After a failed fetch the page shows the error view with the load-error message, and the old data is kept. |
| `CrowdManagement.FailedRunShowsError` | src/pages/CrowdManagement.js:48-66 | A run whose last fetch failed ends on the error view with the load-error message, whatever earlier fetches delivered. |
| `CrowdManagement.DeliveredFetchShowsData` | src/pages/CrowdManagement.js:45-47 | After a delivered fetch the page shows the main view, with the live time and chart data of the received snapshot. |
| `CrowdManagement.CrowdFeed.constructor` | src/pages/CrowdManagement.js:22-24 | The page starts with no data, `loading` true and no error. |
| `CrowdManagement.CrowdFeed.BeginFetch` | src/pages/CrowdManagement.js:41 | The first step of a fetch clears the error and changes nothing else. |
| `CrowdManagement.CrowdFeed.CompleteFetch` | src/pages/CrowdManagement.js:42-51 | A delivered response replaces the data. A network error, a response that is not ok, or an unparsed body records the load-error message and keeps the data. `loading` ends in every case. |
| `CrowdManagement.CrowdFeed.Fetch` | src/pages/CrowdManagement.js:40-52 | `fetchData` moves the state to `AfterFetch` of the old state and the result. |
| `CrowdManagement.CrowdFeed.RunPoller` | src/pages/CrowdManagement.js:34-38 | The mount fetch and each interval fetch complete in turn, and the state becomes `Run` of the old state over the results. |
| `FeedLink.ServedSnapshotIsShown` | src/pages/CrowdManagement.js:43-46 | After fetching the snapshot served at second `s`, the page shows the main view. Its live time is that slot's timestamp, and it offers 8 options. Each building's option shows exactly that building's reading. |
| `FeedLink.HighRiskSlot0` | server.js:21-30 | Slot 0 has three readings predicted above 80. Library's 80 is not above 80. |
| `FeedLink.HighRiskSlot1` | server.js:31-40 | Slot 1 has four readings predicted above 80. |
| `FeedLink.HighRiskSlot2` | server.js:41-50 | Slot 2 has four readings predicted above 80. |
| `FeedLink.DefaultAlertOfSnapshot` | src/pages/CrowdManagement.js:87-93 | With the default controls (`"all"`, threshold 80), the banner after a fetch counts the high-risk readings of the whole served snapshot. |
| `FeedLink.DefaultAlertPerSlot` | src/pages/CrowdManagement.js:87-93 | With the default controls (threshold 80), the banner after a fetch counts 3 buildings in slot 0 and 4 in slots 1 and 2. |

## Left out

- Express, cors, the `pg` pool and the SQL text are I/O and library code. Storage is an abstract row log plus one injected outcome per INSERT.
- `GET /api/crowd-history` and `GET /api/test-db` are not modelled. Both are plain pass-throughs to the database.
- The wall clock (`new Date()`) is not modelled. The handler takes the second as a natural-number input.
- The GET handler is asynchronous: the reply is sent before the insert loop. The model fixes the reply before the loop and states that it does not depend on any outcome. Latency and concurrent requests are not modelled.
- `console.error` logging of a failed insert is not modelled. The error is swallowed as in the source.
- The POST body is taken as an already-typed record. Absent or mistyped JSON fields (undefined becomes SQL NULL) are not distinguished.
- `setInterval`/`clearInterval` timing, unmounting, and overlapping or out-of-order fetches are not modelled. The poller is a sequence of completed fetches, applied one at a time.
- Reading the JSON body is modelled as parsed (`Some(readings)`) or failed (`None`), and parsing itself is not modelled.
- React rendering, recharts, `HeatMap`, `LoadingView` and `ErrorView` are components this model does not contain. `color` is an opaque string.
- `IdString`: building ids are modelled as natural numbers printed in plain decimal. The model does not cover what `String()` prints for negative or fractional ids. It does not cover ids of 10^21 or more, which JavaScript prints in exponent form, or ids above 2^53, which a JavaScript number cannot hold exactly. Filtering is unaffected, because the options and the filter both go through the same `String()`.
- Counts and the threshold are taken as integers. Fractional JSON numbers and double-precision comparison are not modelled.
- `setThreshold` is never called in the page, so the threshold is a control whose initial value is 80.
