/**
 * The `sunburst-chart-card` custom element: its four state fields (the sticky
 * cache `_lastPreparedData`, the `_fetchingData` flag, the single-flight flag
 * `_updateInProgress` and the debounce slot `_debounceTimeout`) and the
 * methods that move them. Each asynchronous method is one atomic step here; a
 * state in which a flag is true stands for a call suspended at an `await`.
 * The network fetch is an input (`Fetch`), the browser's timers are the ghost
 * set `armed`, and the calls into the charting library are recorded in the
 * ghost `log`.
 */
module SunburstCard {
  import opened Wrappers
  import opened SunburstData

  /** The card configuration; `jsonUrl` is None when the key is absent. */
  datatype Config = Config(jsonUrl: Option<string>)

  /** `config.jsonUrl` is truthy: present and not the empty string. */
  predicate HasJsonUrl(c: Config)
  {
    c.jsonUrl.Some? && c.jsonUrl.value != ""
  }

  /** What the card does to the outside world: a fetch of the configured URL,
      a first plot, or an in-place redraw. */
  datatype Event = Fetched(url: string) | NewPlot(data: seq<Trace>) | React(data: seq<Trace>)

  /** `_prepareData` fetches when nothing is cached or a fetch is in flight; a
      cached `[]` is not `null`, so it does not cause a refetch. */
  predicate Refetches(cache: Option<seq<Trace>>, fetching: bool)
  {
    cache.None? || fetching
  }

  /** The list `_prepareData` leaves in the cache and returns. Without a
      configuration, reading `jsonUrl` throws inside the `try`, which stores `[]`. */
  function CacheAfter(cache: Option<seq<Trace>>, fetching: bool, config: Option<Config>, fetch: Fetch): seq<Trace>
    requires Refetches(cache, fetching) || cache.Some?
  {
    if !Refetches(cache, fetching) then cache.value
    else if config.Some? then FetchResult(fetch)
    else []
  }

  /** The fetch `_prepareData` performs, if any. */
  function FetchLog(cache: Option<seq<Trace>>, fetching: bool, config: Option<Config>): seq<Event>
    requires config.Some? ==> HasJsonUrl(config.value)
  {
    if Refetches(cache, fetching) && config.Some? then [Fetched(config.value.jsonUrl.value)] else []
  }

  class SunburstChartCard {
    /** Identity of the assigned `hass` object; None is `null`. */
    var hass: Option<nat>
    var config: Option<Config>
    var lastPreparedData: Option<seq<Trace>>
    var updateInProgress: bool
    var fetchingData: bool
    /** The handle of the last timer armed by `_debouncedUpdateChart`. It is not
        reset when the timer fires. */
    var debounceTimeout: Option<nat>
    /** The shadow root holds the `#chart` element (written by `_renderChart`). */
    var chartExists: bool
    /** The host's next `setTimeout` handle; handles are positive. */
    var nextTimerId: nat
    /** The card's timers that the host has armed and not yet fired or cleared. */
    ghost var armed: set<nat>
    ghost var log: seq<Event>

    ghost predicate Valid()
      reads this
    {
      && (forall t :: t in armed ==> debounceTimeout == Some(t))
      && 0 < nextTimerId
      && (debounceTimeout.Some? ==> 0 < debounceTimeout.value < nextTimerId)
      && (chartExists ==> config.Some?)
      && (config.Some? ==> HasJsonUrl(config.value))
    }

    /** At most one refresh is pending at any time. */
    lemma AtMostOnePending()
      requires Valid()
      ensures |armed| <= 1
      ensures armed != {} ==> armed == {debounceTimeout.value}
    {
      if armed != {} {
        var t :| t in armed;
        assert armed == {t};
      }
    }

    constructor ()
      ensures Valid()
      ensures hass.None? && config.None? && lastPreparedData.None?
      ensures !updateInProgress && !fetchingData && debounceTimeout.None? && !chartExists
      ensures armed == {} && log == []
    {
      hass := None;
      config := None;
      lastPreparedData := None;
      updateInProgress := false;
      fetchingData := false;
      debounceTimeout := None;
      chartExists := false;
      nextTimerId := 1;
      armed := {};
      log := [];
    }

    /** The effect of `_prepareData` on the cache, the flag and the log, and of
        the plot call the caller makes when the returned list is not empty. */
    twostate predicate PreparedAndDrew(fetch: Fetch, draw: seq<Trace> -> Event)
      reads this
    {
      && old(Refetches(lastPreparedData, fetchingData) || lastPreparedData.Some?)
      && (config.Some? ==> HasJsonUrl(config.value))
      && !fetchingData
      && var data := CacheAfter(old(lastPreparedData), old(fetchingData), config, fetch);
         && lastPreparedData == Some(data)
         && log == old(log) + FetchLog(old(lastPreparedData), old(fetchingData), config)
                            + (if |data| > 0 then [draw(data)] else [])
    }

    /** The `hass` setter: a different object is stored, and a refresh is
        scheduled only when a configuration is set and `#chart` exists. */
    method SetHass(h: Option<nat>)
      requires Valid()
      modifies this`hass, this`debounceTimeout, this`nextTimerId, this`armed
      ensures Valid()
      ensures hass == h
      ensures old(hass) != h && config.Some? && chartExists ==>
        debounceTimeout == Some(old(nextTimerId)) && armed == {old(nextTimerId)}
      ensures !(old(hass) != h && config.Some? && chartExists) ==>
        unchanged(this`debounceTimeout, this`nextTimerId, this`armed)
    {
      if hass != h {
        hass := h;
        if config.Some? && chartExists {
          DebouncedUpdateChart();
        }
      }
    }

    /** `setConfig`: throws, changing nothing, unless `jsonUrl` is truthy;
        otherwise stores the configuration and renders at once when the
        charting library is already loaded (else the script's `onload` calls
        `RenderChart` later). */
    method SetConfig(c: Config, plotlyLoaded: bool, fetch: Fetch) returns (thrown: bool)
      requires Valid()
      modifies this`config, this`chartExists, this`lastPreparedData, this`fetchingData, this`log
      ensures Valid()
      ensures thrown <==> !HasJsonUrl(c)
      ensures thrown ==> unchanged(this)
      ensures !thrown ==> config == Some(c)
      ensures !thrown && !plotlyLoaded ==>
        unchanged(this`chartExists, this`lastPreparedData, this`fetchingData, this`log)
      ensures !thrown && plotlyLoaded ==> chartExists && PreparedAndDrew(fetch, d => NewPlot(d))
    {
      if !HasJsonUrl(c) {
        return true;
      }
      thrown := false;
      config := Some(c);
      if plotlyLoaded {
        RenderChart(fetch);
      }
    }

    /** `_renderChart`: without a configuration nothing happens; otherwise the
        shadow root gets `#chart`, data is prepared, and the chart is plotted
        only when the prepared list is not empty. */
    method RenderChart(fetch: Fetch)
      requires Valid()
      modifies this`chartExists, this`lastPreparedData, this`fetchingData, this`log
      ensures Valid()
      ensures old(config).None? ==> unchanged(this)
      ensures old(config).Some? ==> chartExists && PreparedAndDrew(fetch, d => NewPlot(d))
    {
      if config.None? {
        return;
      }
      chartExists := true;
      var data := PrepareData(fetch);
      if |data| > 0 {
        log := log + [NewPlot(data)];
      }
    }

    /** `_updateChart`: skipped entirely while another update is in progress;
        otherwise prepares data and redraws when `#chart` exists, treats an
        empty list as the caught "No data" error, and always clears the flag. */
    method UpdateChart(fetch: Fetch)
      requires Valid()
      modifies this`updateInProgress, this`lastPreparedData, this`fetchingData, this`log
      ensures Valid()
      ensures old(updateInProgress) ==> unchanged(this)
      ensures !old(updateInProgress) ==> !updateInProgress
      ensures !old(updateInProgress) && !chartExists ==>
        unchanged(this`lastPreparedData, this`fetchingData, this`log)
      ensures !old(updateInProgress) && chartExists ==> PreparedAndDrew(fetch, d => React(d))
    {
      if updateInProgress {
        return;
      }
      updateInProgress := true;
      if chartExists {
        var newData := PrepareData(fetch);
        if |newData| > 0 {
          log := log + [React(newData)];
        }
      }
      updateInProgress := false;
    }

    /** `_debouncedUpdateChart`: clears the pending timer, if any, and arms a
        new one, so exactly one refresh is pending afterwards. */
    method DebouncedUpdateChart()
      requires Valid()
      modifies this`debounceTimeout, this`nextTimerId, this`armed
      ensures Valid()
      ensures debounceTimeout == Some(old(nextTimerId)) && old(nextTimerId) !in old(armed)
      ensures armed == {old(nextTimerId)}
    {
      if debounceTimeout.Some? {
        armed := armed - {debounceTimeout.value};
      }
      var id := nextTimerId;
      nextTimerId := nextTimerId + 1;
      armed := armed + {id};
      debounceTimeout := Some(id);
    }

    /** The host fires an armed timer: it is no longer pending, and the card
        runs `_updateChart`. */
    method TimerFired(id: nat, fetch: Fetch)
      requires Valid() && id in armed
      modifies this`armed, this`updateInProgress, this`lastPreparedData, this`fetchingData, this`log
      ensures Valid()
      ensures armed == {}
      ensures old(updateInProgress) ==>
        unchanged(this`updateInProgress, this`lastPreparedData, this`fetchingData, this`log)
      ensures !old(updateInProgress) ==> !updateInProgress
      ensures !old(updateInProgress) && !chartExists ==>
        unchanged(this`lastPreparedData, this`fetchingData, this`log)
      ensures !old(updateInProgress) && chartExists ==> PreparedAndDrew(fetch, d => React(d))
    {
      armed := armed - {id};
      UpdateChart(fetch);
    }

    /** `_prepareData`: returns the cache unchanged unless it is `null` or a
        fetch is in flight; otherwise stores the fetch's result (`[]` on any
        failure) and clears `_fetchingData` on every path. */
    method PrepareData(fetch: Fetch) returns (data: seq<Trace>)
      requires Valid()
      modifies this`lastPreparedData, this`fetchingData, this`log
      ensures Valid()
      ensures lastPreparedData == Some(data) && !fetchingData
      ensures !old(Refetches(lastPreparedData, fetchingData)) ==>
        data == old(lastPreparedData.value) && log == old(log)
      ensures old(Refetches(lastPreparedData, fetchingData)) && config.None? ==>
        data == [] && log == old(log)
      ensures old(Refetches(lastPreparedData, fetchingData)) && config.Some? ==>
        data == FetchResult(fetch) && log == old(log) + [Fetched(config.value.jsonUrl.value)]
    {
      if lastPreparedData.None? || fetchingData {
        fetchingData := true;
        if config.None? {
          lastPreparedData := Some([]);
        } else {
          log := log + [Fetched(config.value.jsonUrl.value)];
          match fetch
          case NotOk(_) =>
            lastPreparedData := Some([]);
          case Malformed =>
            lastPreparedData := Some([]);
          case Body(labels, parents, values) =>
            if labels.None? || parents.None? || values.None? {
              lastPreparedData := Some([]);
            } else {
              var processed, _ := ProcessRows(labels.value, parents.value, values.value);
              lastPreparedData := Some([processed]);
            }
        }
        fetchingData := false;
      }
      data := lastPreparedData.value;
    }
  }
}
