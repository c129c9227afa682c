/**
 * The mock measurement provider of pkg/speedtest/mock-speedtest.go. It is
 * the provider the collector model is driven by: its `result` can be set to
 * anything between calls, so it stands for any provider.
 */
module SpeedtestMock {
  import opened Wrappers
  import opened GoTypes
  import opened SpeedtestTypes

  /**
   * `MockSpeedtest`. The `Callback` function is modelled by whether it is set
   * and by how many times it has run; `Result` is a pointer that may be nil.
   */
  class MockSpeedtest {
    var hasCallback: bool
    var callbackRuns: nat
    var fail: bool
    var result: Option<SpeedtestResult>
    /** How many times `Speedtest` has been called. */
    ghost var calls: nat

    constructor (hasCallback: bool, fail: bool, result: Option<SpeedtestResult>)
      ensures this.hasCallback == hasCallback && this.fail == fail && this.result == result
      ensures callbackRuns == 0 && calls == 0
    {
      this.hasCallback := hasCallback;
      this.fail := fail;
      this.result := result;
      callbackRuns := 0;
      calls := 0;
    }

    /** `Speedtest()`: runs the callback once if it is set, then fails or hands back `Result`. */
    method Speedtest(now: Instant) returns (r: Option<SpeedtestResult>)
      modifies this`callbackRuns, this`calls
      ensures calls == old(calls) + 1
      ensures callbackRuns == old(callbackRuns) + (if hasCallback then 1 else 0)
      ensures fail ==> r.Some? && !r.value.success && r.value == NewFailedSpeedtestResult(now)
      ensures !fail ==> r == result
    {
      calls := calls + 1;
      if hasCallback {
        callbackRuns := callbackRuns + 1;
      }
      if fail {
        return Some(NewFailedSpeedtestResult(now));
      }
      return result;
    }
  }

  /** `MockSpeedtestResult(timestamp)`: a fixed successful result stamped with `timestamp`. */
  function MockSpeedtestResult(timestamp: Int64, now: Instant): (r: SpeedtestResult)
    ensures r.timestamp == timestamp && r.success && r.duration == 251234
    ensures r.serverID == "1234" && r.serverHost == "example.org"
    ensures r.clientISP == "Foo Corp." && r.clientIP == "127.0.0.1"
    ensures r.Marshallable()
  {
    var built := NewSpeedtestResult(
      0x3FE0_0000_0000_0000,  // 0.5
      0x402E_0000_0000_0000,  // 15
      0x408B_643D_70A3_D70A,  // 876.53
      0x4028_AE14_7AE1_47AE,  // 12.34
      0x408D_B276_9446_7382,  // 950.3079
      "1234", "example.org", "Foo Corp.", "127.0.0.1", 251234 * Millisecond, now);
    built.(timestamp := timestamp)
  }
}
