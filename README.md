# Sunburst disk-usage card and filesystem sensor, modelled in Dafny

The repository draws a sunburst chart of disk usage on a Home Assistant
dashboard. A Python sensor walks a directory tree and writes three
index-aligned lists (`labels`, `parents`, `values`). A custom element,
`sunburst-chart-card`, fetches that JSON, cleans it and hands it to the
charting library. This project models the three parts that produce, clean and
cache the data:

- **Data preparation** (`_prepareData`, module `SunburstData`, file
  `sunburst_data.dfy`). Rows whose value is at most 5000 bytes are dropped.
  A label already emitted is renamed `label_1`, `label_2`, … up to the first
  unused one. Values are divided by 10^6 (exact real division). `ProcessRows`
  and `UniqueLabel` are the card's `forEach` and `while` loops. They are proved
  equal to the specification functions `Prepare` and `FreshLabel`, and the
  lemmas next to those functions give the properties.
- **The card's state machine** (module `SunburstCard`, file
  `sunburst_card.dfy`). The class `SunburstChartCard` has the constructor's
  fields: the sticky cache `lastPreparedData`, the flags `fetchingData` and
  `updateInProgress`, and the debounce slot `debounceTimeout`. Its methods
  model the `hass` setter, `setConfig`, `_renderChart`, `_updateChart`,
  `_debouncedUpdateChart`, the timer callback and `_prepareData`.
  - The network response is an input value `Fetch`: not ok, an unparsable
    body, or a body in which each key may be absent or falsy.
  - The browser's pending timers are the ghost set `armed`.
  - Fetches and plot calls are recorded in the ghost `log`.
- **The traversal** (`traverse_directory` and its closure
  `process_directory`, module `FilesystemSensor`, file
  `filesystem_sensor.dfy`). The filesystem is an in-memory tree of entries:
  files (whose `stat` may fail), directories (possibly unreadable), symlinks
  and other entries. The class `Walker` holds the lists and the
  `unique_paths` set that the closure captures. `Walker.ProcessDirectory` is
  the closure, proved against the functions `ProcessDir` and `ScanList`.

The two card files, `ha_filesystem_sunburst.js` and
`sunburst-chart-card.js`, contain the same logic and differ only in the CSS
inside the template string, in a few comments on layout lines, and in one
more version-history comment at the end of the first file. One model serves
both:

- lines 1–48 are the same in both files;
- after the style block, which closes at `ha_filesystem_sunburst.js:82` and
  `sunburst-chart-card.js:71`, line L of the first file is line L − 11 of the
  second. For example, `_prepareData` is at 155–219 and at 144–208.

Rows in the table below cite either file; the −11 offset gives the line in
the other.

Behaviour modelled as the code has it:

- **Sticky cache.** A cached `[]` is not `null`, so once any list is cached
  (the failure value included), `_prepareData` fetches again only while
  `_fetchingData` is set. A refresh therefore redraws the cached list when it
  is not empty. Once `[]` is cached, every refresh ends in the caught "No
  data" error, so the card neither fetches nor draws again.
- **Fetch while a fetch is in flight.** A call made while `_fetchingData` is
  true fetches again; the flag does not stop a second fetch.
- **Successful results are never empty.** Success stores a one-element list
  even when no row passes the filter, so the card plots an empty trace rather
  than reporting "no data".
- **Missing configuration.** `_prepareData` without a configuration throws
  inside its `try` while reading `jsonUrl`. It caches `[]` and fetches
  nothing.
- **A rejected `setConfig` keeps the old configuration.** It throws before
  the assignment, so the previous configuration stays. An empty-string
  `jsonUrl` is rejected too.
- **The debounce slot is never cleared.** It keeps the handle of a timer that
  has already fired. Clearing that stale handle later has no effect.
- **In the sensor, names are global.** A name already accepted anywhere in the
  walk is skipped, together with its size. A directory named `Root` repeats
  row 0's label, because `"Root"` is never added to the set.

## Model

| member | source | states |
|---|---|---|
| `SunburstData.UniqueLabel` | sunburst-chart-card.js:163-169 | the `while (uniqueLabels.has(...))` loop terminates with the fresh label for the row (`FreshLabel`), which is not in the set |
| `SunburstData.FreshLabelRule` | ha_filesystem_sunburst.js:174-180 | an unused label is kept; a used one becomes `label_k` exactly for the least k ≥ 1 whose `label_k` is unused (both directions); the result is never already used |
| `SunburstData.FirstFreeIsLeast` | sunburst-chart-card.js:165-169 | the loop's counter stops at the first candidate not in the set, and every earlier candidate is in it |
| `SunburstData.CandidateInjective` | sunburst-chart-card.js:167 | different counters give different candidate labels, and `label_k` never equals `label`; this is why the loop terminates over a finite set |
| `SunburstData.DecimalInjective` | ha_filesystem_sunburst.js:178 | the decimal text of the counter in the template literal determines the counter |
| `SunburstData.KeptIndicesExact` | sunburst-chart-card.js:161-162 | input position i is kept iff `values[i] > 5000` (false when `values` is shorter), and kept positions stay in increasing input order |
| `SunburstData.NoneKept` | ha_filesystem_sunburst.js:173 | when no value exceeds 5000, no position is kept |
| `SunburstData.PrepareMatchesKept` | sunburst-chart-card.js:160-179 | the three output columns have one entry per kept row; entry j's parent is that row's parent unchanged (`undefined` past the end of `parents`), its value times 10^6 is the raw value, and its label is the fresh label for the row's label given the labels emitted before it |
| `SunburstData.PreparedLabelsDistinct` | sunburst-chart-card.js:171-172 | the emitted labels are pairwise distinct |
| `SunburstData.ProcessRows` | ha_filesystem_sunburst.js:171-190 | the `forEach` builds exactly `Prepare(labels, parents, values)`; the set holds exactly the emitted labels; the columns are aligned and the labels distinct |
| `SunburstData.FetchResultCases` | sunburst-chart-card.js:145-203 | the stored list is `[]` exactly for a non-ok response, an unparsable body or a missing key; otherwise it is one aligned trace with distinct labels |
| `SunburstData.AllFilteredStillOneTrace` | sunburst-chart-card.js:181-199 | a successful body with every value at most 5000 still stores a one-element list holding an empty trace |
| `SunburstData.ExampleFilterAndRename` | ha_filesystem_sunburst.js:183-188 | labels A, B, A with values 6000, 4000, 7000 give labels A, A_1, parents copied, values 0.006 and 0.007 |
| `SunburstData.ExampleRenameChain` | sunburst-chart-card.js:163-172 | labels A, A, A_1 (all kept) become A, A_1, A_1_1 |
| `SunburstCard.SunburstChartCard.constructor` | ha_filesystem_sunburst.js:2-11 | every field starts null or false, with nothing pending and nothing logged |
| `SunburstCard.SunburstChartCard.SetHass` | ha_filesystem_sunburst.js:13-22 | stores the new object; arms exactly one fresh timer iff the object changed, a configuration is set and `#chart` exists; otherwise the timer state is unchanged |
| `SunburstCard.SunburstChartCard.SetConfig` | ha_filesystem_sunburst.js:24-41 | throws exactly when `jsonUrl` is absent or empty, then changing nothing; otherwise stores the configuration and, when the library is loaded, renders as `RenderChart` does |
| `SunburstCard.SunburstChartCard.RenderChart` | ha_filesystem_sunburst.js:43-114 | without a configuration nothing changes; otherwise `#chart` exists, the cache is as `_prepareData` leaves it, and a first plot is recorded iff the prepared list is not empty |
| `SunburstCard.SunburstChartCard.UpdateChart` | ha_filesystem_sunburst.js:116-146 | with an update in progress nothing changes; otherwise the flag is false at the end, nothing is prepared without `#chart`, and a redraw is recorded iff the prepared list is not empty (an empty one is the caught "No data" error) |
| `SunburstCard.SunburstChartCard.DebouncedUpdateChart` | ha_filesystem_sunburst.js:148-153 | the previously armed timer is cleared and a fresh one armed, so afterwards exactly one timer is pending and the slot holds it |
| `SunburstCard.SunburstChartCard.AtMostOnePending` | sunburst-chart-card.js:137-142 | in every valid state at most one timer is pending, and it is the one in the slot |
| `SunburstCard.SunburstChartCard.TimerFired` | ha_filesystem_sunburst.js:152 | the fired timer is no longer pending and `_updateChart` runs with its single-flight guard |
| `SunburstCard.SunburstChartCard.PrepareData` | ha_filesystem_sunburst.js:155-219 | fetches iff the cache is null or a fetch is in flight; otherwise returns the cached list (a cached `[]` too) and logs nothing; a fetch stores `FetchResult`; `fetchingData` is false on every return and the returned list is the cache |
| `FilesystemSensor.Walker.constructor` | filesystem/filesystem_sensor.py:39-42 | the three lists and the name set start empty |
| `FilesystemSensor.Walker.ProcessDirectory` | filesystem/filesystem_sensor.py:44-74 | the closure returns the size and leaves the lists and the name set exactly as `ProcessDir` specifies |
| `FilesystemSensor.TraverseDirectory` | filesystem/filesystem_sensor.py:37-80 | the result is `Traverse` of the tree: aligned, with row 0 `Root` with parent `""`, and distinct labels after row 0 |
| `FilesystemSensor.TraverseShape` | filesystem/filesystem_sensor.py:76-80 | the lists are aligned and non-empty, row 0 is `("Root", "", root size)`, and the labels after row 0 are pairwise distinct |
| `FilesystemSensor.ProcessDirKeeps` | filesystem/filesystem_sensor.py:44-74 | on every path, cut-offs and errors included, a directory walk keeps the lists aligned with distinct, accepted labels; it only appends rows and accepts names, and each new label is a name not accepted before |
| `FilesystemSensor.ScanListKeeps` | filesystem/filesystem_sensor.py:50-71 | the same for the loop over one directory's entries |
| `FilesystemSensor.SkippedEntry` | filesystem/filesystem_sensor.py:51-58 | a symlink, or an entry whose name was already accepted anywhere, adds no row, no name and no size |
| `FilesystemSensor.CutOffRecordedAsZero` | filesystem/filesystem_sensor.py:45-46 | a new directory beyond `max_depth` or in `EXCLUDE_DIRS` is not scanned but is still recorded by its caller, with value 0 |
| `FilesystemSensor.ErrorsYieldZero` | filesystem/filesystem_sensor.py:72-74 | an unreadable directory, or a failing `stat` in its loop, makes the directory return 0 while the rows appended before the error stay |
| `FilesystemSensor.ScanStepClean` | filesystem/filesystem_sensor.py:62-70 | on a fully visible entry with new names, the loop appends that entry's post-order rows, accepts its names and adds its disk usage |
| `FilesystemSensor.ScanListClean` | filesystem/filesystem_sensor.py:49-71 | on a fully visible listing with distinct new names, the loop's total is the listing's disk usage and it appends exactly its directories in post-order |
| `FilesystemSensor.DirClean` | filesystem/filesystem_sensor.py:63-67 | a fully visible directory whose subtree names are distinct and not yet accepted returns the sum of its files' sizes and its subdirectories' returned sizes, which is the value recorded for it |
| `FilesystemSensor.TraverseClean` | filesystem/filesystem_sensor.py:37-80 | on a fully visible tree with distinct names, the output is the Root row with the total disk usage, then every directory after its descendants, with its parent's label and its subtree's size |
| `FilesystemSensor.ExampleRootNameRepeats` | filesystem/filesystem_sensor.py:76-77 | a top-level directory named `Root` gives the labels `Root`, `Root` |

## Left out

- Shadow-DOM markup, CSS and `getElementById` are not modelled. Whether `#chart` exists is the boolean field `chartExists`, which `RenderChart` sets.
- Loading the charting library, `Plotly.newPlot` and `Plotly.react` are not modelled. Their calls are recorded as `NewPlot`/`React` events in the ghost `log`. The layout and config literals are left out.
- The trace's constant fields (`type`, `branchvalues`, `textinfo`, `hovertemplate`, `insidetextorientation`, `maxdepth`, `marker`) are left out. A `Trace` holds only the three columns.
- `fetch`, `response.ok` and `response.json()` are network I/O. Their outcome is the parameter `Fetch`.
  - A body that is not an object, or whose `labels` is truthy but not an array (it has no `forEach`), throws inside the same `try` as a bad parse. It is represented by `Malformed`.
  - Bodies whose `parents` or `values` are truthy but not arrays are not represented. The code does not throw on them; it indexes them as it indexes arrays (a string `parents` yields its characters, a number `values` keeps no row). `Body` holds only sequences.
  - Labels are strings and values are numbers.
- Interleaving at `await` points is not explored. Each asynchronous method is one atomic step. A state with `fetchingData` or `updateInProgress` set stands for a call suspended inside such a step. The contracts cover those states, but no interleaving of two calls is explored step by step.
- The 300 ms delay of `setTimeout` is not modelled. The host's pending timers are the ghost set `armed`, and firing is the method `TimerFired`.
- IEEE double arithmetic of `/ 1e6` is replaced by exact real division.
- `console.log`/`console.error`, Python `logging` and the error messages are left out.
- `customElements.define` and `getCardSize` (the constant 4) are left out.
- The Python module's `config.json` loading, its `__main__` block and the JSON file it writes are left out. `EXCLUDE_DIRS` and `max_depth` are the parameter `Settings`.
- `calculate_folder_size` is not called anywhere and is pure `os.walk` I/O, so it is left out.
- `os.scandir`, `os.path.realpath` and `stat` are replaced by the `Entry` tree.
  - A directory's `path` is its resolved path.
  - `os.path.basename(entry.name)` is the entry's name, since names contain no separator.
  - Errors while iterating a listing, other than a failing `stat`, are not modelled.
- `FilesystemSensor.DirClean`: the sum rule is proved only for a fully visible directory whose subtree names are distinct and not yet accepted. The code keeps that rule on every directory, but with repeated names the sum counts only the entries that were not skipped, and this model has no closed form for that set. `ScanStepClean` and `ScanListClean` carry the same condition.
- `FilesystemSensor.TraverseClean`: the closed form of the sizes and of the post-order listing is proved only for trees whose names are all distinct and that are fully visible (no errors, no cut-offs). On other trees the walk is proved to keep its invariants (`ProcessDirKeeps`), to skip repeated names and symlinks (`SkippedEntry`), and to record cut-offs and errors as 0 (`CutOffRecordedAsZero`, `ErrorsYieldZero`).
