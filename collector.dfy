/**
 * The Prometheus collector of pkg/collector/collector.go: a result held for
 * a refresh window, a double-checked refresh under one mutex, and the gauges
 * emitted per scrape. Clock readings are parameters: `t1` for the check
 * before the lock, `t2` for the check under it, `tRun` for the provider's own
 * clock and `t3` for `setNextSpeedtestTime`.
 */
module SpeedtestCollector {
  import opened Wrappers
  import opened GoTypes
  import opened SpeedtestTypes
  import opened SpeedtestMock

  datatype CollectorError = ErrNoSpeedtest

  /** A constant gauge sent on the collection channel: descriptor name, label values, value. */
  datatype Metric = Metric(name: string, labels: seq<string>, value: Float64)

  const JitterLatencyName: string := "speedtest_jitter_latency_milliseconds"
  const PingName: string := "speedtest_ping_latency_milliseconds"
  const DownloadSpeedName: string := "speedtest_download_megabits_per_second"
  const UploadSpeedName: string := "speedtest_upload_megabits_per_second"
  const DataUsedName: string := "speedtest_data_used_megabytes"
  const UpName: string := "speedtest_up"

  /** The instant before which no new measurement runs, after a refresh at `now`. */
  function NextSpeedtestTime(now: Instant, cacheTime: Duration): Instant {
    now + MulDuration(Minute, cacheTime)
  }

  /** What a call of the provider yields at clock reading `now`. */
  function ProviderResult(p: MockSpeedtest, now: Instant): Option<SpeedtestResult>
    reads p
  {
    if p.fail then Some(NewFailedSpeedtestResult(now)) else p.result
  }

  /** The metrics one scrape sends for `r`: five labelled gauges on success, then `speedtest_up`. */
  function Emission(r: SpeedtestResult): seq<Metric> {
    var labels := [r.ClientIP(), r.ClientISP()];
    (if r.Success() then
       [ Metric(JitterLatencyName, labels, r.JitterLatency()),
         Metric(PingName, labels, r.Ping()),
         Metric(DownloadSpeedName, labels, r.DownloadSpeed()),
         Metric(UploadSpeedName, labels, r.UploadSpeed()),
         Metric(DataUsedName, labels, r.DataUsed()) ]
     else [])
    + [Metric(UpName, [], if r.Success() then FloatOne else FloatZero)]
  }

  /** The value of the first metric named `name` in `ms`, if any. */
  function ValueOf(ms: seq<Metric>, name: string): Option<Float64> {
    if |ms| == 0 then None
    else if ms[0].name == name then Some(ms[0].value)
    else ValueOf(ms[1..], name)
  }

  class Collector {
    const cacheTime: Duration
    const speedtest: MockSpeedtest
    var lastResult: Option<SpeedtestResult>
    var nextSpeedtest: Instant

    constructor (cacheTime: Duration, speedtest: MockSpeedtest)
      ensures this.cacheTime == cacheTime && this.speedtest == speedtest
      ensures lastResult.None? && nextSpeedtest == ZeroTime
    {
      this.cacheTime := cacheTime;
      this.speedtest := speedtest;
      lastResult := None;
      nextSpeedtest := ZeroTime;
    }

    /** The condition under which the held result is returned without a new measurement. */
    predicate CacheFresh(now: Instant)
      reads this
    {
      lastResult.Some? && now < nextSpeedtest
    }

    /** The call was answered from the held result: nothing changed and the provider was not called. */
    twostate predicate Served(new r: Option<SpeedtestResult>)
      reads this, speedtest
    {
      r == old(lastResult) && lastResult == old(lastResult) && nextSpeedtest == old(nextSpeedtest)
      && speedtest.calls == old(speedtest.calls) && speedtest.callbackRuns == old(speedtest.callbackRuns)
    }

    /** The call ran the provider exactly once, stored its result and moved the refresh window. */
    twostate predicate Refreshed(new r: Option<SpeedtestResult>, tRun: Instant, t3: Instant)
      reads this, speedtest
    {
      r == ProviderResult(speedtest, tRun) && lastResult == r
      && nextSpeedtest == NextSpeedtestTime(t3, cacheTime)
      && speedtest.calls == old(speedtest.calls) + 1
      && speedtest.callbackRuns == old(speedtest.callbackRuns) + (if speedtest.hasCallback then 1 else 0)
    }

    /** The check made before taking the mutex. */
    method CheckCache(now: Instant) returns (hit: bool, r: Option<SpeedtestResult>)
      ensures hit <==> CacheFresh(now)
      ensures hit ==> r == lastResult && r.Some?
    {
      hit := lastResult.Some? && now < nextSpeedtest;
      r := if hit then lastResult else None;
    }

    /** `setNextSpeedtestTime` at clock reading `now`. */
    method SetNextSpeedtestTime(now: Instant)
      modifies this`nextSpeedtest
      ensures nextSpeedtest == NextSpeedtestTime(now, cacheTime)
    {
      nextSpeedtest := now + MulDuration(Minute, cacheTime);
    }

    /** The part of `getSpeedtestResult` that holds the mutex: check again, else measure and refresh. */
    method RunLocked(t2: Instant, tRun: Instant, t3: Instant) returns (r: Option<SpeedtestResult>)
      modifies this`lastResult, this`nextSpeedtest, speedtest`callbackRuns, speedtest`calls
      ensures old(CacheFresh(t2)) ==> Served(r)
      ensures !old(CacheFresh(t2)) ==> Refreshed(r, tRun, t3)
    {
      var hit, cached := CheckCache(t2);
      if hit {
        return cached;
      }
      lastResult := speedtest.Speedtest(tRun);
      SetNextSpeedtestTime(t3);
      r := lastResult;
    }

    /**
     * `getSpeedtestResult` run by one caller alone: the held result while the
     * window is open, a new measurement otherwise. The clock readings follow
     * one another as Go's monotonic clock does, so the check under the mutex
     * sees what the first check saw; a refresh by another caller between the
     * two checks is `CheckCache` followed by `RunLocked`, as in
     * `WaitingCallersShareOneRun`.
     */
    method GetSpeedtestResult(t1: Instant, t2: Instant, tRun: Instant, t3: Instant)
      returns (r: Option<SpeedtestResult>)
      requires t1 <= t2 <= tRun <= t3
      modifies this`lastResult, this`nextSpeedtest, speedtest`callbackRuns, speedtest`calls
      ensures old(CacheFresh(t1)) ==> Served(r)
      ensures !old(CacheFresh(t1)) ==> Refreshed(r, tRun, t3)
    {
      var hit, cached := CheckCache(t1);
      if hit {
        return cached;
      }
      r := RunLocked(t2, tRun, t3);
    }

    /**
     * `Collect`: the metrics sent for the current result. A nil result makes
     * the source dereference a nil pointer; that is `panicked`, with nothing sent.
     */
    method Collect(t1: Instant, t2: Instant, tRun: Instant, t3: Instant)
      returns (sent: seq<Metric>, panicked: bool)
      requires t1 <= t2 <= tRun <= t3
      modifies this`lastResult, this`nextSpeedtest, speedtest`callbackRuns, speedtest`calls
      ensures old(CacheFresh(t1)) ==> Served(lastResult)
      ensures !old(CacheFresh(t1)) ==> Refreshed(lastResult, tRun, t3)
      ensures panicked <==> lastResult.None?
      ensures sent == if lastResult.Some? then Emission(lastResult.value) else []
    {
      var result := GetSpeedtestResult(t1, t2, tRun, t3);
      if result.None? {
        return [], true;
      }
      var r := result.value;
      var up := FloatZero;
      sent := [];
      if r.Success() {
        up := FloatOne;
        var labelValues := [r.ClientIP(), r.ClientISP()];
        sent := sent + [Metric(JitterLatencyName, labelValues, r.JitterLatency())];
        sent := sent + [Metric(PingName, labelValues, r.Ping())];
        sent := sent + [Metric(DownloadSpeedName, labelValues, r.DownloadSpeed())];
        sent := sent + [Metric(UploadSpeedName, labelValues, r.UploadSpeed())];
        sent := sent + [Metric(DataUsedName, labelValues, r.DataUsed())];
      }
      sent := sent + [Metric(UpName, [], up)];
      panicked := false;
    }
  }

  /** `NewCollector`: fails exactly when no provider is given; a new collector holds no result. */
  method NewCollector(cacheTime: Duration, speedtest: MockSpeedtest?)
    returns (c: Collector?, err: Option<CollectorError>)
    ensures err.Some? <==> speedtest == null
    ensures err.Some? ==> c == null
    ensures err.None? ==> c != null && fresh(c) && c.cacheTime == cacheTime && c.speedtest == speedtest
    ensures err.None? ==> c.lastResult.None? && !c.CacheFresh(c.nextSpeedtest - 1)
  {
    if speedtest == null {
      return null, Some(ErrNoSpeedtest);
    }
    c := new Collector(cacheTime, speedtest);
    err := None;
  }

  /** The metrics name distinct gauges, and each one carries the field of the result it is named after. */
  lemma {:induction false} EmissionReportsResult(r: SpeedtestResult)
    ensures r.success ==> |Emission(r)| == 6
    ensures r.success ==> forall i :: 0 <= i < 5 ==> Emission(r)[i].labels == [r.clientIP, r.clientISP]
    ensures r.success ==> ValueOf(Emission(r), JitterLatencyName) == Some(r.jitterLatency)
    ensures r.success ==> ValueOf(Emission(r), PingName) == Some(r.ping)
    ensures r.success ==> ValueOf(Emission(r), DownloadSpeedName) == Some(r.downloadSpeed)
    ensures r.success ==> ValueOf(Emission(r), UploadSpeedName) == Some(r.uploadSpeed)
    ensures r.success ==> ValueOf(Emission(r), DataUsedName) == Some(r.dataUsed)
    ensures !r.success ==> Emission(r) == [Metric(UpName, [], FloatZero)]
    ensures ValueOf(Emission(r), UpName) == Some(if r.success then FloatOne else FloatZero)
  {
    var m := Emission(r);
    if r.success {
      MetricNamesDistinct();
      assert ValueOf(m, JitterLatencyName) == Some(r.jitterLatency);
      ValueOfSkips(m, 1, PingName);
      ValueOfSkips(m, 2, DownloadSpeedName);
      ValueOfSkips(m, 3, UploadSpeedName);
      ValueOfSkips(m, 4, DataUsedName);
      ValueOfSkips(m, 5, UpName);
    }
  }

  /** Metrics ahead of the first one named `name` do not affect its value. */
  lemma {:induction false} ValueOfSkips(ms: seq<Metric>, k: nat, name: string)
    requires k <= |ms|
    requires forall i :: 0 <= i < k ==> ms[i].name != name
    ensures ValueOf(ms, name) == ValueOf(ms[k..], name)
  {
    if k > 0 {
      ValueOfSkips(ms[1..], k - 1, name);
      assert ms[1..][k - 1..] == ms[k..];
    }
  }

  /** The six metric names differ from one another. */
  lemma MetricNamesDistinct()
    ensures JitterLatencyName != PingName && JitterLatencyName != DownloadSpeedName
    ensures JitterLatencyName != UploadSpeedName && JitterLatencyName != DataUsedName && JitterLatencyName != UpName
    ensures PingName != DownloadSpeedName && PingName != UploadSpeedName
    ensures PingName != DataUsedName && PingName != UpName
    ensures DownloadSpeedName != UploadSpeedName && DownloadSpeedName != DataUsedName && DownloadSpeedName != UpName
    ensures UploadSpeedName != DataUsedName && UploadSpeedName != UpName && DataUsedName != UpName
  {
    assert JitterLatencyName[10] == 'j' && PingName[10] == 'p' && DownloadSpeedName[10] == 'd';
    assert UploadSpeedName[10] == 'u' && DataUsedName[10] == 'd' && UpName[10] == 'u';
    assert DownloadSpeedName[11] == 'o' && DataUsedName[11] == 'a';
    assert |UpName| == 12 && |UploadSpeedName| > 12;
  }

  /** `speedtest_up` is the last metric sent, and it is 1 exactly for a successful result. */
  lemma UpIsLastAndReflectsSuccess(r: SpeedtestResult)
    ensures |Emission(r)| >= 1 && Emission(r)[|Emission(r)| - 1].name == UpName
    ensures Emission(r)[|Emission(r)| - 1].value == FloatOne <==> r.success
    ensures Emission(r)[|Emission(r)| - 1].labels == []
  {
  }

  /** `time.Minute * c.cacheTime` with the default 5 minute cache time wraps to about -127 years. */
  lemma DefaultWindowWraps()
    ensures MulDuration(Minute, 5 * Minute) == -4_022_215_940_522_377_216
    ensures forall now: Instant :: NextSpeedtestTime(now, 5 * Minute) < now
  {
    assert Minute * (5 * Minute) - 975 * TwoTo64 - TwoTo64 == -4_022_215_940_522_377_216;
  }

  /** So with a 5 minute cache time a stored result is never served: every scrape measures again. */
  lemma DefaultWindowNeverServes(c: Collector, t3: Instant, now: Instant)
    requires c.cacheTime == 5 * Minute && c.nextSpeedtest == NextSpeedtestTime(t3, c.cacheTime)
    requires t3 <= now
    ensures !c.CacheFresh(now)
  {
    DefaultWindowWraps();
  }

  /** Read as a count of minutes (the product does not overflow), the window is `cacheTime` minutes long. */
  lemma MinuteCountWindow(now: Instant, cacheTime: Duration)
    requires 0 <= cacheTime <= Int64Max / Minute
    ensures NextSpeedtestTime(now, cacheTime) == now + cacheTime * Minute
  {
    assert 0 <= Minute * cacheTime <= Int64Max;
  }

  /**
   * The clock readings of callers that take the mutex one after another:
   * each caller's re-check, provider run and window reset happen in that
   * order, and the next caller re-checks after the previous one released it.
   */
  predicate SerialClocks(t2s: seq<Instant>, tRuns: seq<Instant>, t3s: seq<Instant>) {
    |tRuns| == |t2s| && |t3s| == |t2s|
    && (forall k :: 0 <= k < |t2s| ==> t2s[k] <= tRuns[k] <= t3s[k])
    && (forall k :: 1 <= k < |t2s| ==> t3s[k - 1] <= t2s[k])
  }

  /**
   * Callers that all found the window closed before the mutex, then take it
   * one after another. When the window the first caller opens covers every
   * later caller's re-check, only the first calls the provider and all of
   * them return its result.
   */
  method WaitingCallersShareOneRun(c: Collector, t2s: seq<Instant>, tRuns: seq<Instant>, t3s: seq<Instant>)
    returns (results: seq<Option<SpeedtestResult>>)
    requires SerialClocks(t2s, tRuns, t3s)
    requires |t2s| > 0 ==> !c.CacheFresh(t2s[0])
    requires c.speedtest.fail || c.speedtest.result.Some?
    requires forall k :: 1 <= k < |t2s| ==> t2s[k] < NextSpeedtestTime(t3s[0], c.cacheTime)
    modifies c`lastResult, c`nextSpeedtest, c.speedtest`callbackRuns, c.speedtest`calls
    ensures |results| == |t2s|
    ensures c.speedtest.calls == old(c.speedtest.calls) + (if |t2s| == 0 then 0 else 1)
    ensures |t2s| > 0 ==> c.lastResult == ProviderResult(c.speedtest, tRuns[0])
    ensures |t2s| > 0 ==> c.nextSpeedtest == NextSpeedtestTime(t3s[0], c.cacheTime)
    ensures forall k :: 0 <= k < |t2s| ==> results[k] == c.lastResult
  {
    results := [];
    var i := 0;
    while i < |t2s|
      invariant 0 <= i <= |t2s| && |results| == i
      invariant i == 0 ==> c.speedtest.calls == old(c.speedtest.calls)
      invariant i == 0 && i < |t2s| ==> !c.CacheFresh(t2s[0])
      invariant i > 0 ==> c.speedtest.calls == old(c.speedtest.calls) + 1
      invariant i > 0 ==> c.lastResult == ProviderResult(c.speedtest, tRuns[0]) && c.lastResult.Some?
      invariant i > 0 ==> c.nextSpeedtest == NextSpeedtestTime(t3s[0], c.cacheTime)
      invariant forall k :: 0 <= k < i ==> results[k] == c.lastResult
      invariant c.speedtest.fail == old(c.speedtest.fail) && c.speedtest.result == old(c.speedtest.result)
    {
      var r := c.RunLocked(t2s[i], tRuns[i], t3s[i]);
      results := results + [r];
      i := i + 1;
    }
  }

  /**
   * With the default 5 minute cache time the same callers gain nothing from
   * waiting: each re-check finds the window already closed, so every caller
   * calls the provider and gets the result of its own run.
   */
  method DefaultWaitingCallersEachRun(c: Collector, t2s: seq<Instant>, tRuns: seq<Instant>, t3s: seq<Instant>)
    returns (results: seq<Option<SpeedtestResult>>)
    requires c.cacheTime == 5 * Minute
    requires SerialClocks(t2s, tRuns, t3s)
    requires |t2s| > 0 ==> !c.CacheFresh(t2s[0])
    modifies c`lastResult, c`nextSpeedtest, c.speedtest`callbackRuns, c.speedtest`calls
    ensures |results| == |t2s|
    ensures c.speedtest.calls == old(c.speedtest.calls) + |t2s|
    ensures forall k :: 0 <= k < |t2s| ==> results[k] == ProviderResult(c.speedtest, tRuns[k])
  {
    DefaultWindowWraps();
    results := [];
    var i := 0;
    while i < |t2s|
      invariant 0 <= i <= |t2s| && |results| == i
      invariant c.speedtest.calls == old(c.speedtest.calls) + i
      invariant i == 0 && i < |t2s| ==> !c.CacheFresh(t2s[0])
      invariant i > 0 ==> c.nextSpeedtest == NextSpeedtestTime(t3s[i - 1], c.cacheTime)
      invariant forall k :: 0 <= k < i ==> results[k] == ProviderResult(c.speedtest, tRuns[k])
      invariant c.speedtest.fail == old(c.speedtest.fail) && c.speedtest.result == old(c.speedtest.result)
    {
      if i > 0 {
        assert c.nextSpeedtest < t3s[i - 1] <= t2s[i];
      }
      var r := c.RunLocked(t2s[i], tRuns[i], t3s[i]);
      results := results + [r];
      i := i + 1;
    }
  }
}
