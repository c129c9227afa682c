/**
 * The remote-write client of promremote v2 (vendored
 * promremote/v2/promremote/client.go): option validation, the conversion of
 * collected metrics into time series, and the idle/running flag. The HTTP
 * transport, the remote API, the symbol table and the ticker are outside;
 * their outcomes are parameters.
 */
module PromRemoteV2 {
  import opened Wrappers
  import opened GoTypes
  import opened PromMetrics

  const DefaultJobName: string := "promremote"

  datatype ClientError =
    | ErrMissingEndpoint
    | ErrMissingInstance
    | ErrMissingJob
    | ErrMissingRegistry
    | ErrMissingAuthCredentials
    | ErrInvalidMetricDesc(desc: string)
    | ErrMetricWrite            // metric.Write failed
    | ErrUnknownMetricType
    | ErrFailedToCreateRemoteAPI
    | ErrClientAlreadyRunning

  datatype Credentials = Credentials(username: string, password: string)

  /** The client fields that options set; `basicAuth` is the transport installed by `WithBasicAuth`. */
  datatype Settings = Settings(instance: string, job: string, basicAuth: Option<Credentials>)

  /** The `ClientOption` closures this package offers. */
  datatype ClientOption =
    | WithBasicAuth(username: string, password: string)
    | WithInstanceLabel(instance: string)
    | WithJobLabel(job: string)

  /** Whether an option accepts its arguments; none of them looks at the client. */
  predicate Acceptable(opt: ClientOption) {
    match opt
    case WithBasicAuth(u, p) => u != "" && p != ""
    case WithInstanceLabel(i) => i != ""
    case WithJobLabel(j) => j != ""
  }

  /** The error an option returns for arguments it rejects. */
  function Rejection(opt: ClientOption): ClientError {
    match opt
    case WithBasicAuth(_, _) => ErrMissingAuthCredentials
    case WithInstanceLabel(_) => ErrMissingInstance
    case WithJobLabel(_) => ErrMissingJob
  }

  /** Applying one option: reject its arguments, or set its own field and nothing else. */
  function ApplyOption(s: Settings, opt: ClientOption): (r: Result<Settings, ClientError>)
    ensures r.Success? <==> Acceptable(opt)
    ensures r.Failure? ==> r.error == Rejection(opt)
    ensures r.Success? && opt.WithBasicAuth? ==>
      r.value == s.(basicAuth := Some(Credentials(opt.username, opt.password)))
    ensures r.Success? && opt.WithInstanceLabel? ==> r.value == s.(instance := opt.instance)
    ensures r.Success? && opt.WithJobLabel? ==> r.value == s.(job := opt.job)
  {
    match opt
    case WithBasicAuth(u, p) =>
      if u == "" || p == "" then Failure(ErrMissingAuthCredentials)
      else Success(s.(basicAuth := Some(Credentials(u, p))))
    case WithInstanceLabel(i) =>
      if i == "" then Failure(ErrMissingInstance) else Success(s.(instance := i))
    case WithJobLabel(j) =>
      if j == "" then Failure(ErrMissingJob) else Success(s.(job := j))
  }

  /** The options applied in order, stopping at the first error. */
  function ApplyAll(s: Settings, opts: seq<ClientOption>): Result<Settings, ClientError>
    decreases |opts|
  {
    if opts == [] then Success(s)
    else
      match ApplyOption(s, opts[0])
      case Failure(e) => Failure(e)
      case Success(s') => ApplyAll(s', opts[1..])
  }

  /** Options succeed together exactly when each accepts its arguments. */
  lemma {:induction false} ApplyAllSucceedsIff(s: Settings, opts: seq<ClientOption>)
    ensures ApplyAll(s, opts).Success? <==> forall i :: 0 <= i < |opts| ==> Acceptable(opts[i])
    decreases |opts|
  {
    if opts != [] {
      if Acceptable(opts[0]) {
        ApplyAllSucceedsIff(ApplyOption(s, opts[0]).value, opts[1..]);
        assert forall i :: 1 <= i < |opts| ==> opts[i] == opts[1..][i - 1];
      }
    }
  }

  /** A failure is the rejection by the first option that rejects its arguments. */
  lemma {:induction false} ApplyAllFirstError(s: Settings, opts: seq<ClientOption>)
    requires ApplyAll(s, opts).Failure?
    ensures exists i ::
      && 0 <= i < |opts|
      && !Acceptable(opts[i])
      && ApplyAll(s, opts).error == Rejection(opts[i])
      && (forall j :: 0 <= j < i ==> Acceptable(opts[j]))
    decreases |opts|
  {
    if Acceptable(opts[0]) {
      var rest := opts[1..];
      ApplyAllFirstError(ApplyOption(s, opts[0]).value, rest);
      var i :| 0 <= i < |rest| && !Acceptable(rest[i]) && ApplyAll(s, opts).error == Rejection(rest[i])
        && forall j :: 0 <= j < i ==> Acceptable(rest[j]);
      assert opts[i + 1] == rest[i];
      assert forall j :: 1 <= j < i + 1 ==> opts[j] == rest[j - 1];
    }
  }

  /** An instance option taking effect last decides the instance label. */
  lemma {:induction false} LastInstanceLabelWins(s: Settings, opts: seq<ClientOption>, instance: string)
    requires ApplyAll(s, opts + [WithInstanceLabel(instance)]).Success?
    ensures ApplyAll(s, opts + [WithInstanceLabel(instance)]).value.instance == instance
    decreases |opts|
  {
    if opts == [] {
      assert [WithInstanceLabel(instance)][1..] == [];
    } else {
      assert (opts + [WithInstanceLabel(instance)])[1..] == opts[1..] + [WithInstanceLabel(instance)];
      LastInstanceLabelWins(ApplyOption(s, opts[0]).value, opts[1..], instance);
    }
  }

  /** The settings before any option: the hostname (or "localhost") and the default job. */
  function Defaults(hostname: Option<string>): (s: Settings)
    ensures s.job == "promremote" && s.basicAuth.None?
    ensures s.instance == (if hostname.Some? then hostname.value else "localhost")
  {
    Settings(match hostname case Some(h) => h case None => "localhost", DefaultJobName, None)
  }

  /** A time series of the v2 write request, with its labels before symbolization. */
  datatype TimeSeries = TimeSeries(kind: MetricType, help: string, labels: seq<string>, value: Float64, timestamp: Int64)

  /** The six reserved entries that open every label list. */
  function ReservedPrefix(fqName: string, instance: string, job: string): seq<string> {
    ["__name__", fqName, "instance", instance, "job", job]
  }

  /** The time series one collected metric becomes, or the error that stops collection. */
  function Convert(instance: string, job: string, m: CollectedMetric, timestamp: Int64): Result<TimeSeries, ClientError>
  {
    if m.fqName.None? then Failure(ErrInvalidMetricDesc(m.desc))
    else if m.written.None? then Failure(ErrMetricWrite)
    else
      var dto := m.written.value;
      var own := OwnLabels(dto.labels);
      var labels := ReservedPrefix(m.fqName.value, instance, job) + Flatten(own);
      match SelectValue(dto)
      case None => Failure(ErrUnknownMetricType)
      case Some(tv) =>
        Success(TimeSeries(tv.kind, match m.help case Some(h) => h case None => "", labels, tv.value, timestamp))
  }

  /** What `Convert` yields: the error of the first check that fails, or the series built from the metric. */
  lemma ConvertSpec(instance: string, job: string, m: CollectedMetric, timestamp: Int64)
    ensures var r := Convert(instance, job, m, timestamp);
      && (m.fqName.None? ==> r == Failure(ErrInvalidMetricDesc(m.desc)))
      && (m.fqName.Some? && m.written.None? ==> r == Failure(ErrMetricWrite))
      && (m.fqName.Some? && m.written.Some? && SelectValue(m.written.value).None? ==> r == Failure(ErrUnknownMetricType))
      && (r.Success? <==> m.fqName.Some? && m.written.Some? && SelectValue(m.written.value).Some?)
      && (r.Success? ==> r.value.timestamp == timestamp && r.value.help == (if m.help.Some? then m.help.value else ""))
      && (r.Success? ==> TypedValue(r.value.kind, r.value.value) == SelectValue(m.written.value).value)
      && (r.Success? ==> r.value.labels == ReservedPrefix(m.fqName.value, instance, job) + Flatten(OwnLabels(m.written.value.labels)))
  {
  }

  /** Every label list has even length, opens with the reserved prefix and repeats no reserved name after it. */
  lemma LabelListShape(fqName: string, instance: string, job: string, own: seq<LabelPair>)
    ensures var labels := ReservedPrefix(fqName, instance, job) + Flatten(OwnLabels(own));
      && |labels| % 2 == 0
      && 6 <= |labels|
      && labels[..6] == ["__name__", fqName, "instance", instance, "job", job]
      && forall k :: 3 <= k < |labels| / 2 ==> !Reserved(labels[2 * k])
  {
    var kept := OwnLabels(own);
    var labels := ReservedPrefix(fqName, instance, job) + Flatten(kept);
    forall k | 3 <= k < |labels| / 2
      ensures !Reserved(labels[2 * k])
    {
      FlattenIndex(kept, k - 3);
      assert labels[2 * k] == Flatten(kept)[2 * (k - 3)];
    }
  }

  /** Keeping or dropping one more label. */
  lemma OwnLabelsStep(own: seq<LabelPair>, i: nat)
    requires i < |own|
    ensures OwnLabels(own[..i + 1]) == OwnLabels(own[..i]) + (if Reserved(own[i].name) then [] else [own[i]])
  {
    assert own[..i + 1][..i] == own[..i];
  }

  lemma FlattenSnoc(ps: seq<LabelPair>, p: LabelPair)
    ensures Flatten(ps + [p]) == Flatten(ps) + [p.name, p.value]
  {
    assert (ps + [p])[..|ps|] == ps;
  }

  /** The label list of `collect`: the reserved prefix, then the metric's own labels minus reserved names. */
  method BuildLabels(fqName: string, instance: string, job: string, own: seq<LabelPair>) returns (labels: seq<string>)
    ensures labels == ReservedPrefix(fqName, instance, job) + Flatten(OwnLabels(own))
  {
    labels := ReservedPrefix(fqName, instance, job);
    ghost var prefix := labels;
    ghost var kept: seq<LabelPair> := [];
    var i := 0;
    while i < |own|
      invariant 0 <= i <= |own|
      invariant kept == OwnLabels(own[..i])
      invariant labels == prefix + Flatten(kept)
    {
      var l := own[i];
      OwnLabelsStep(own, i);
      if !Reserved(l.name) {
        FlattenSnoc(kept, l);
        assert labels + [l.name, l.value] == prefix + (Flatten(kept) + [l.name, l.value]);
        labels := labels + [l.name, l.value];
        kept := kept + [l];
      }
      i := i + 1;
    }
    assert own[..|own|] == own;
  }

  /** The client; `cancel` holds whether a cancel function is stored and `cancelled` whether it was called. */
  class Client {
    var instance: string
    var job: string
    var basicAuth: Option<Credentials>
    const registry: Registry
    var running: bool
    var hasCancel: bool
    var cancelled: bool
    /** Write requests sent by the background loop. */
    var writes: nat

    constructor (s: Settings, registry: Registry)
      ensures Current() == s && this.registry == registry
      ensures !running && !hasCancel && !cancelled && writes == 0
    {
      instance := s.instance;
      job := s.job;
      basicAuth := s.basicAuth;
      this.registry := registry;
      running := false;
      hasCancel := false;
      cancelled := false;
      writes := 0;
    }

    function Current(): Settings
      reads this
    {
      Settings(instance, job, basicAuth)
    }

    /** Runs one option closure against this client. */
    method Apply(opt: ClientOption) returns (err: Option<ClientError>)
      modifies this`instance, this`job, this`basicAuth
      ensures ApplyOption(old(Current()), opt).Success? ==> err.None? && Current() == ApplyOption(old(Current()), opt).value
      ensures ApplyOption(old(Current()), opt).Failure? ==>
        err == Some(ApplyOption(old(Current()), opt).error) && Current() == old(Current())
    {
      match opt {
        case WithBasicAuth(u, p) =>
          if u == "" || p == "" {
            return Some(ErrMissingAuthCredentials);
          }
          basicAuth := Some(Credentials(u, p));
        case WithInstanceLabel(i) =>
          if i == "" {
            return Some(ErrMissingInstance);
          }
          instance := i;
        case WithJobLabel(j) =>
          if j == "" {
            return Some(ErrMissingJob);
          }
          job := j;
      }
      return None;
    }

    /** The body of the `collect` loop for one metric. */
    method ConvertMetric(m: CollectedMetric, timestamp: Int64) returns (ts: Result<TimeSeries, ClientError>)
      ensures ts == Convert(instance, job, m, timestamp)
    {
      if m.fqName.None? {
        return Failure(ErrInvalidMetricDesc(m.desc));
      }
      if m.written.None? {
        return Failure(ErrMetricWrite);
      }
      var dto := m.written.value;
      var labels := BuildLabels(m.fqName.value, instance, job, dto.labels);
      var kind: MetricType;
      var value: Float64;
      if dto.counter.Some? {
        kind, value := Counter, dto.counter.value;
      } else if dto.gauge.Some? {
        kind, value := Gauge, dto.gauge.value;
      } else if dto.untyped.Some? {
        kind, value := Unspecified, dto.untyped.value;
      } else {
        return Failure(ErrUnknownMetricType);
      }
      var help := if m.help.Some? then m.help.value else "";
      return Success(TimeSeries(kind, help, labels, value, timestamp));
    }

    /** `collect`: every metric converted in order, or the first metric's error. */
    method Collect(metrics: seq<CollectedMetric>, timestamp: Int64) returns (res: Result<seq<TimeSeries>, ClientError>)
      ensures res.Success? <==> forall j :: 0 <= j < |metrics| ==> Convert(instance, job, metrics[j], timestamp).Success?
      ensures res.Success? ==> |res.value| == |metrics|
      ensures res.Success? ==> forall j :: 0 <= j < |metrics| ==> res.value[j] == Convert(instance, job, metrics[j], timestamp).value
      ensures res.Failure? ==> exists j ::
        && 0 <= j < |metrics|
        && Convert(instance, job, metrics[j], timestamp) == Failure(res.error)
        && (forall k :: 0 <= k < j ==> Convert(instance, job, metrics[k], timestamp).Success?)
    {
      var series: seq<TimeSeries> := [];
      var i := 0;
      while i < |metrics|
        invariant 0 <= i <= |metrics| && |series| == i
        invariant forall j :: 0 <= j < i ==> Convert(instance, job, metrics[j], timestamp) == Success(series[j])
      {
        var ts := ConvertMetric(metrics[i], timestamp);
        if ts.Failure? {
          return Failure(ts.error);
        }
        series := series + [ts.value];
        i := i + 1;
      }
      return Success(series);
    }

    /** `Run`: refuses while running; otherwise marks the client running with a fresh cancel function. */
    method Run() returns (err: Option<ClientError>)
      modifies this`running, this`hasCancel, this`cancelled
      ensures old(running) ==> err == Some(ErrClientAlreadyRunning)
      ensures old(running) ==> running && hasCancel == old(hasCancel) && cancelled == old(cancelled)
      ensures !old(running) ==> err.None? && running && hasCancel && !cancelled
    {
      if running {
        return Some(ErrClientAlreadyRunning);
      }
      running := true;
      hasCancel := true;
      cancelled := false;
      return None;
    }

    /** `IsRunning`. */
    method IsRunning() returns (b: bool)
      ensures b == running
    {
      return running;
    }

    /** `Stop`: cancels the loop only while running with a cancel function; otherwise nothing happens. */
    method Stop()
      modifies this`cancelled
      ensures cancelled == (old(cancelled) || (running && hasCancel))
    {
      if running && hasCancel {
        cancelled := true;
      }
    }

    /**
     * One pass of the background loop: one write, then the `select`. `tick`
     * is the case the select takes; it can take the done case only once the
     * context is cancelled. Leaving the loop stores `false` in the flag.
     */
    method LoopIteration(tick: bool) returns (exited: bool)
      requires running
      requires !tick ==> cancelled
      modifies this`writes, this`running
      ensures writes == old(writes) + 1
      ensures exited <==> !tick
      ensures running <==> !exited
    {
      writes := writes + 1;
      if !tick {
        running := false;
        return true;
      }
      return false;
    }
  }

  /**
   * `NewWriteClient`: the endpoint is checked before the registry; then the
   * options are applied to the defaults in order, and the remote API is created.
   */
  method NewWriteClient(endpoint: string, reg: Registry?, opts: seq<ClientOption>, hostname: Option<string>, apiOk: bool)
    returns (c: Client?, err: Option<ClientError>)
    ensures err.Some? <==> c == null
    ensures endpoint == "" ==> err == Some(ErrMissingEndpoint)
    ensures endpoint != "" && reg == null ==> err == Some(ErrMissingRegistry)
    ensures endpoint != "" && reg != null && ApplyAll(Defaults(hostname), opts).Failure? ==>
      err == Some(ApplyAll(Defaults(hostname), opts).error)
    ensures endpoint != "" && reg != null && ApplyAll(Defaults(hostname), opts).Success? ==>
      if apiOk then c != null && fresh(c) && c.Current() == ApplyAll(Defaults(hostname), opts).value
        && c.registry == reg && !c.running
      else err == Some(ErrFailedToCreateRemoteAPI)
  {
    if endpoint == "" {
      return null, Some(ErrMissingEndpoint);
    }
    if reg == null {
      return null, Some(ErrMissingRegistry);
    }
    var client := new Client(Defaults(hostname), reg);
    var i := 0;
    while i < |opts|
      invariant 0 <= i <= |opts|
      invariant ApplyAll(Defaults(hostname), opts) == ApplyAll(client.Current(), opts[i..])
      invariant client.registry == reg && !client.running
    {
      assert opts[i..][1..] == opts[i + 1..];
      var e := client.Apply(opts[i]);
      if e.Some? {
        return null, e;
      }
      i := i + 1;
    }
    if !apiOk {
      return null, Some(ErrFailedToCreateRemoteAPI);
    }
    return client, None;
  }

  /** `Registry()`: nil on a nil client. */
  method RegistryOf(c: Client?) returns (r: Registry?)
    ensures c == null ==> r == null
    ensures c != null ==> r == c.registry
  {
    if c == null {
      return null;
    }
    return c.registry;
  }

  /** Start, a refused second start, stop, loop exit, and a restart. */
  method Lifecycle(c: Client) returns (first: Option<ClientError>, second: Option<ClientError>, third: Option<ClientError>)
    requires !c.running
    modifies c
    ensures first.None? && second == Some(ErrClientAlreadyRunning) && third.None?
    ensures c.running && !c.cancelled
  {
    first := c.Run();
    second := c.Run();
    c.Stop();
    var exited := c.LoopIteration(false);
    var stillRunning := c.IsRunning();
    assert exited && !stillRunning;
    third := c.Run();
  }
}
