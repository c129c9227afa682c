/**
 * The remote-write client of promremote v1 (vendored
 * promremote/promremote/client.go): constructor checks, basic-auth
 * credentials, the request it posts and the status check, the conversion
 * of collected metrics, and the one-second wait between pushes. Protobuf
 * encoding, snappy compression and the HTTP exchange are outside; their
 * outcomes are parameters.
 */
module PromRemoteV1 {
  import opened Wrappers
  import opened GoTypes
  import opened PromMetrics
  import PromRemoteV2

  datatype ClientError =
    | ErrMissingEndpoint
    | ErrMissingInstance
    | ErrMissingJob
    | ErrMissingRegistry
    | ErrMissingAuthCredentials
    | ErrInvalidMetricDesc(desc: string)
    | ErrMetricWrite            // metric.Write failed
    | ErrUnknownMetricType
    | ErrRequest                // http.NewRequest or the HTTP exchange failed
    | ErrRemoteWriteFailed(status: int)

  datatype Header = Header(name: string, value: string)

  /** The request `post` sends, without its body. */
  datatype WriteRequest = WriteRequest(url: string, headers: seq<Header>, basicAuth: Option<(string, string)>)

  /** What the HTTP layer does with the request. */
  datatype HttpOutcome = RequestInvalid | TransportError | Response(status: int)

  /** The error for a response status: every status outside 200..299 fails. */
  function StatusError(status: int): (r: Option<ClientError>)
    ensures r.None? <==> 200 <= status <= 299
    ensures r.Some? ==> r.value == ErrRemoteWriteFailed(status)
  {
    if status < 200 || status > 299 then Some(ErrRemoteWriteFailed(status)) else None
  }

  /** The error `post` returns for an HTTP outcome. */
  function PostError(outcome: HttpOutcome): (r: Option<ClientError>)
    ensures r.None? <==> outcome.Response? && 200 <= outcome.status <= 299
  {
    match outcome
    case RequestInvalid => Some(ErrRequest)
    case TransportError => Some(ErrRequest)
    case Response(status) => StatusError(status)
  }

  /** A time series of the v1 write request. */
  datatype TimeSeries = TimeSeries(labels: seq<LabelPair>, value: Float64, timestamp: Int64)

  function ReservedPairs(fqName: string, instance: string, job: string): seq<LabelPair> {
    [LabelPair("__name__", fqName), LabelPair("instance", instance), LabelPair("job", job)]
  }

  /** The time series one collected metric becomes, or the error that stops collection. */
  function Convert(instance: string, job: string, m: CollectedMetric, timestamp: Int64): Result<TimeSeries, ClientError>
  {
    if m.fqName.None? then Failure(ErrInvalidMetricDesc(m.desc))
    else if m.written.None? then Failure(ErrMetricWrite)
    else
      var dto := m.written.value;
      var labels := ReservedPairs(m.fqName.value, instance, job) + OwnLabels(dto.labels);
      match SelectValue(dto)
      case None => Failure(ErrUnknownMetricType)
      case Some(tv) => Success(TimeSeries(labels, tv.value, timestamp))
  }

  /** What `Convert` yields: the error of the first check that fails, or the series built from the metric. */
  lemma ConvertSpec(instance: string, job: string, m: CollectedMetric, timestamp: Int64)
    ensures var r := Convert(instance, job, m, timestamp);
      && (m.fqName.None? ==> r == Failure(ErrInvalidMetricDesc(m.desc)))
      && (m.fqName.Some? && m.written.None? ==> r == Failure(ErrMetricWrite))
      && (m.fqName.Some? && m.written.Some? && SelectValue(m.written.value).None? ==> r == Failure(ErrUnknownMetricType))
      && (r.Success? <==> m.fqName.Some? && m.written.Some? && SelectValue(m.written.value).Some?)
      && (r.Success? ==> r.value.timestamp == timestamp && r.value.value == SelectValue(m.written.value).value.value)
      && (r.Success? ==> r.value.labels == ReservedPairs(m.fqName.value, instance, job) + OwnLabels(m.written.value.labels))
  {
  }

  /** The labels open with the three reserved names, and none of them comes back after. */
  lemma LabelsShape(fqName: string, instance: string, job: string, own: seq<LabelPair>)
    ensures var labels := ReservedPairs(fqName, instance, job) + OwnLabels(own);
      && 3 <= |labels|
      && labels[0].name == "__name__" && labels[1].name == "instance" && labels[2].name == "job"
      && forall k :: 3 <= k < |labels| ==> !Reserved(labels[k].name)
  {
  }

  /** Flattened, the v1 label structs are exactly the v2 label list. */
  lemma LabelsAgreeWithV2(fqName: string, instance: string, job: string, own: seq<LabelPair>)
    ensures Flatten(ReservedPairs(fqName, instance, job) + OwnLabels(own))
         == PromRemoteV2.ReservedPrefix(fqName, instance, job) + Flatten(OwnLabels(own))
  {
    var reserved := ReservedPairs(fqName, instance, job);
    FlattenAppend(reserved, OwnLabels(own));
    var one, two := reserved[..1], reserved[..2];
    assert one[..0] == [] && two[..1] == one && reserved[..2] == two;
    assert Flatten(one) == ["__name__", fqName];
    assert Flatten(two) == ["__name__", fqName, "instance", instance];
    assert Flatten(reserved) == ["__name__", fqName, "instance", instance, "job", job];
  }

  /** Both versions accept and reject the same metrics, and send the same value and labels. */
  lemma ConvertAgreesWithV2(instance: string, job: string, m: CollectedMetric, timestamp: Int64)
    ensures Convert(instance, job, m, timestamp).Success? <==> PromRemoteV2.Convert(instance, job, m, timestamp).Success?
    ensures Convert(instance, job, m, timestamp).Success? ==>
      var v1 := Convert(instance, job, m, timestamp).value;
      var v2 := PromRemoteV2.Convert(instance, job, m, timestamp).value;
      v1.value == v2.value && Flatten(v1.labels) == v2.labels && v1.timestamp == v2.timestamp
  {
    if m.fqName.Some? && m.written.Some? {
      LabelsAgreeWithV2(m.fqName.value, instance, job, m.written.value.labels);
    }
  }

  /** The label structs of `collect`: the reserved ones, then the metric's own minus reserved names. */
  method BuildLabels(fqName: string, instance: string, job: string, own: seq<LabelPair>) returns (labels: seq<LabelPair>)
    ensures labels == ReservedPairs(fqName, instance, job) + OwnLabels(own)
  {
    labels := [];
    labels := labels + [LabelPair("__name__", fqName)];
    labels := labels + [LabelPair("instance", instance)];
    labels := labels + [LabelPair("job", job)];
    ghost var prefix := labels;
    assert prefix == ReservedPairs(fqName, instance, job);
    ghost var kept: seq<LabelPair> := [];
    var i := 0;
    while i < |own|
      invariant 0 <= i <= |own|
      invariant kept == OwnLabels(own[..i])
      invariant labels == prefix + kept
    {
      var l := own[i];
      assert own[..i + 1][..i] == own[..i];
      if !Reserved(l.name) {
        labels := labels + [LabelPair(l.name, l.value)];
        kept := kept + [l];
      }
      i := i + 1;
    }
    assert own[..|own|] == own;
  }

  /** The number of one-second timers the wait loop runs through: whole seconds reaching `interval`. */
  function TicksBeforePush(interval: Duration): (n: nat)
    ensures interval <= n * Second
    ensures n > 0 ==> (n - 1) * Second < interval
  {
    if interval <= 0 then 0 else (interval + Second - 1) / Second
  }

  lemma TicksExamples()
    ensures TicksBeforePush(0) == 0 && TicksBeforePush(-Second) == 0
    ensures TicksBeforePush(30 * Second) == 30 && TicksBeforePush(1_500 * Millisecond) == 2
    ensures TicksBeforePush(1) == 1
  {
  }

  /**
   * The wait after each push: one-second timers until the elapsed time
   * reaches `interval`. `quitAt` is the timer during which the quit signal
   * arrives, if it does; the loop then returns at once.
   */
  method WaitForNextPush(interval: Duration, quitAt: Option<nat>) returns (ticks: nat, quit: bool)
    requires interval <= 9_223_372_036 * Second
    ensures quitAt.Some? && quitAt.value < TicksBeforePush(interval) ==> quit && ticks == quitAt.value
    ensures (quitAt.None? || quitAt.value >= TicksBeforePush(interval)) ==> !quit && ticks == TicksBeforePush(interval)
  {
    var elapsed: Duration := 0;
    ticks := 0;
    while elapsed < interval
      invariant elapsed == ticks * Second
      invariant ticks <= TicksBeforePush(interval)
      invariant quitAt.Some? ==> ticks <= quitAt.value
      decreases interval - elapsed
    {
      if quitAt == Some(ticks) {
        return ticks, true;
      }
      elapsed := AddDuration(elapsed, Second);
      ticks := ticks + 1;
    }
    quit := false;
  }

  class Client {
    const endpoint: string
    const instance: string
    const job: string
    var username: string
    var password: string
    const registry: Registry

    constructor (endpoint: string, instance: string, job: string, registry: Registry)
      ensures this.endpoint == endpoint && this.instance == instance && this.job == job
      ensures this.registry == registry && username == "" && password == ""
    {
      this.endpoint := endpoint;
      this.instance := instance;
      this.job := job;
      this.registry := registry;
      username := "";
      password := "";
    }

    /** `SetBasicAuth`: both credentials are required; on error the stored ones stay as they were. */
    method SetBasicAuth(username: string, password: string) returns (err: Option<ClientError>)
      modifies this`username, this`password
      ensures err.Some? <==> username == "" || password == ""
      ensures err.Some? ==> err.value == ErrMissingAuthCredentials
      ensures err.Some? ==> this.username == old(this.username) && this.password == old(this.password)
      ensures err.None? ==> this.username == username && this.password == password
    {
      if username == "" || password == "" {
        return Some(ErrMissingAuthCredentials);
      }
      this.username := username;
      this.password := password;
      return None;
    }

    /** The request for this client's endpoint; basic auth is set only with a username. */
    function Request(): (req: WriteRequest)
      reads this
      ensures req.url == endpoint
      ensures req.basicAuth.Some? <==> username != ""
      ensures req.basicAuth.Some? ==> req.basicAuth.value == (username, password)
    {
      WriteRequest(endpoint,
        [ Header("Content-Encoding", "snappy"),
          Header("Content-Type", "application/x-protobuf"),
          Header("X-Prometheus-Remote-Read-Version", "0.1.0") ],
        if username != "" then Some((username, password)) else None)
    }

    /** `post`: builds the request and reports the HTTP layer's failure or a non-2xx status. */
    method Post(outcome: HttpOutcome) returns (sent: Option<WriteRequest>, err: Option<ClientError>)
      ensures sent.Some? <==> !outcome.RequestInvalid?
      ensures sent.Some? ==> sent.value == Request()
      ensures err == PostError(outcome)
    {
      if outcome.RequestInvalid? {
        return None, Some(ErrRequest);
      }
      var req := WriteRequest(endpoint, [], None);
      req := req.(headers := req.headers + [Header("Content-Encoding", "snappy")]);
      req := req.(headers := req.headers + [Header("Content-Type", "application/x-protobuf")]);
      req := req.(headers := req.headers + [Header("X-Prometheus-Remote-Read-Version", "0.1.0")]);
      if username != "" {
        req := req.(basicAuth := Some((username, password)));
      }
      sent := Some(req);
      match outcome {
        case TransportError => err := Some(ErrRequest);
        case Response(status) =>
          if status < 200 || status > 299 {
            err := Some(ErrRemoteWriteFailed(status));
          } else {
            err := None;
          }
      }
    }

    /** The body of the `collect` loop for one metric. */
    method ConvertMetric(m: CollectedMetric, timestamp: Int64) returns (ts: Result<TimeSeries, ClientError>)
      ensures ts == Convert(instance, job, m, timestamp)
    {
      if m.fqName.None? {
        return Failure(ErrInvalidMetricDesc(m.desc));
      }
      if m.written.None? {
        return Failure(ErrMetricWrite);
      }
      var dto := m.written.value;
      var labels := BuildLabels(m.fqName.value, instance, job, dto.labels);
      var value: Float64;
      if dto.counter.Some? {
        value := dto.counter.value;
      } else if dto.gauge.Some? {
        value := dto.gauge.value;
      } else if dto.untyped.Some? {
        value := dto.untyped.value;
      } else {
        return Failure(ErrUnknownMetricType);
      }
      return Success(TimeSeries(labels, value, timestamp));
    }

    /** `collect`: every metric converted in order, or the first metric's error. */
    method Collect(metrics: seq<CollectedMetric>, timestamp: Int64) returns (res: Result<seq<TimeSeries>, ClientError>)
      ensures res.Success? <==> forall j :: 0 <= j < |metrics| ==> Convert(instance, job, metrics[j], timestamp).Success?
      ensures res.Success? ==> |res.value| == |metrics|
      ensures res.Success? ==> forall j :: 0 <= j < |metrics| ==> res.value[j] == Convert(instance, job, metrics[j], timestamp).value
      ensures res.Failure? ==> exists j ::
        && 0 <= j < |metrics|
        && Convert(instance, job, metrics[j], timestamp) == Failure(res.error)
        && (forall k :: 0 <= k < j ==> Convert(instance, job, metrics[k], timestamp).Success?)
    {
      var series: seq<TimeSeries> := [];
      var i := 0;
      while i < |metrics|
        invariant 0 <= i <= |metrics| && |series| == i
        invariant forall j :: 0 <= j < i ==> Convert(instance, job, metrics[j], timestamp) == Success(series[j])
      {
        var ts := ConvertMetric(metrics[i], timestamp);
        if ts.Failure? {
          return Failure(ts.error);
        }
        series := series + [ts.value];
        i := i + 1;
      }
      return Success(series);
    }

    /**
     * One cycle of the `Run` goroutine: collect, post even when collecting
     * failed, then wait for the next push or the quit signal.
     */
    method PushCycle(metrics: seq<CollectedMetric>, timestamp: Int64, outcome: HttpOutcome, interval: Duration, quitAt: Option<nat>)
      returns (collected: Result<seq<TimeSeries>, ClientError>, posted: Option<WriteRequest>, postErr: Option<ClientError>, ticks: nat, quit: bool)
      requires interval <= 9_223_372_036 * Second
      ensures collected.Success? <==> forall j :: 0 <= j < |metrics| ==> Convert(instance, job, metrics[j], timestamp).Success?
      ensures posted.Some? <==> !outcome.RequestInvalid?
      ensures postErr == PostError(outcome)
      ensures quit <==> quitAt.Some? && quitAt.value < TicksBeforePush(interval)
      ensures ticks == if quit then quitAt.value else TicksBeforePush(interval)
    {
      collected := Collect(metrics, timestamp);
      posted, postErr := Post(outcome);
      ticks, quit := WaitForNextPush(interval, quitAt);
    }
  }

  /** `NewWriteClient`: endpoint, instance, job and registry are checked in that order. */
  method NewWriteClient(endpoint: string, instance: string, job: string, reg: Registry?)
    returns (c: Client?, err: Option<ClientError>)
    ensures err.Some? <==> c == null
    ensures endpoint == "" ==> err == Some(ErrMissingEndpoint)
    ensures endpoint != "" && instance == "" ==> err == Some(ErrMissingInstance)
    ensures endpoint != "" && instance != "" && job == "" ==> err == Some(ErrMissingJob)
    ensures endpoint != "" && instance != "" && job != "" && reg == null ==> err == Some(ErrMissingRegistry)
    ensures endpoint != "" && instance != "" && job != "" && reg != null ==>
      c != null && fresh(c) && c.endpoint == endpoint && c.instance == instance && c.job == job
      && c.registry == reg && c.username == "" && c.password == ""
  {
    if endpoint == "" {
      return null, Some(ErrMissingEndpoint);
    }
    if instance == "" {
      return null, Some(ErrMissingInstance);
    }
    if job == "" {
      return null, Some(ErrMissingJob);
    }
    if reg == null {
      return null, Some(ErrMissingRegistry);
    }
    c := new Client(endpoint, instance, job, reg);
    err := None;
  }

  /** `Endpoint()`: "" on a nil client. */
  method Endpoint(c: Client?) returns (e: string)
    ensures c == null ==> e == ""
    ensures c != null ==> e == c.endpoint
  {
    if c == null {
      return "";
    }
    return c.endpoint;
  }

  /** `Registry()`: nil on a nil client. */
  method RegistryOf(c: Client?) returns (r: Registry?)
    ensures c == null ==> r == null
    ensures c != null ==> r == c.registry
  {
    if c == null {
      return null;
    }
    return c.registry;
  }
}
