/**
 * The measurement record `SpeedtestResult` of pkg/speedtest/types.go, its
 * constructors and getters, and its JSON form through the twelve-field
 * alias record `speedtestResultJSONAlias`.
 */
module SpeedtestTypes {
  import opened Wrappers
  import opened GoTypes

  /** One measurement, or the record of a failed one. */
  datatype SpeedtestResult = SpeedtestResult(
    jitterLatency: Float64,  // ms
    ping: Float64,           // ms
    downloadSpeed: Float64,  // Mbit/s
    uploadSpeed: Float64,    // Mbit/s
    dataUsed: Float64,       // MB
    serverID: string,
    serverHost: string,
    clientISP: string,
    clientIP: string,
    success: bool,
    timestamp: Int64,        // milliseconds since the Unix epoch
    duration: Int64)         // milliseconds
  {
    function JitterLatency(): Float64 { jitterLatency }
    function Ping(): Float64 { ping }
    function DownloadSpeed(): Float64 { downloadSpeed }
    function UploadSpeed(): Float64 { uploadSpeed }
    function DataUsed(): Float64 { dataUsed }
    function ServerID(): string { serverID }
    function ServerHost(): string { serverHost }
    function ClientISP(): string { clientISP }
    function ClientIP(): string { clientIP }
    function Success(): bool { success }
    function Timestamp(): Int64 { timestamp }
    function Duration(): Int64 { duration }

    /** The exact millisecond instant `timestamp` milliseconds after the Unix epoch. */
    function TimestampAsTime(): (t: Instant)
      ensures t % Millisecond == 0 && t / Millisecond == timestamp
    {
      FromUnixMilli(timestamp)
    }

    /** True when every float field is finite, which is what encoding/json can write. */
    predicate Marshallable() {
      IsFinite(jitterLatency) && IsFinite(ping) && IsFinite(downloadSpeed)
      && IsFinite(uploadSpeed) && IsFinite(dataUsed)
    }
  }

  /** The zero value `SpeedtestResult{}`. */
  const ZeroResult: SpeedtestResult :=
    SpeedtestResult(0, 0, 0, 0, 0, "", "", "", "", false, 0, 0)

  /** `NewFailedSpeedtestResult`, with the clock reading `now` as a parameter. */
  function NewFailedSpeedtestResult(now: Instant): (r: SpeedtestResult)
    ensures !r.success && r.timestamp == UnixMilli(now)
    ensures r.(timestamp := 0) == ZeroResult
  {
    SpeedtestResult(0, 0, 0, 0, 0, "", "", "", "", false, UnixMilli(now), 0)
  }

  /** `NewSpeedtestResult`, with the clock reading `now` as a parameter. */
  function NewSpeedtestResult(
    jitterLatency: Float64, ping: Float64, downloadSpeed: Float64, uploadSpeed: Float64,
    dataUsed: Float64, serverID: string, serverHost: string, clientISP: string,
    clientIP: string, duration: Duration, now: Instant): (r: SpeedtestResult)
    ensures r.success && r.timestamp == UnixMilli(now)
    ensures r.jitterLatency == jitterLatency && r.ping == ping
    ensures r.downloadSpeed == downloadSpeed && r.uploadSpeed == uploadSpeed
    ensures r.dataUsed == dataUsed && r.serverID == serverID && r.serverHost == serverHost
    ensures r.clientISP == clientISP && r.clientIP == clientIP
    ensures duration >= 0 ==> r.duration * Millisecond <= duration < (r.duration + 1) * Millisecond
    ensures duration < 0 ==> r.duration <= 0 && (r.duration - 1) * Millisecond < duration <= r.duration * Millisecond
  {
    SpeedtestResult(jitterLatency, ping, downloadSpeed, uploadSpeed, dataUsed,
                    serverID, serverHost, clientISP, clientIP, true, UnixMilli(now),
                    Milliseconds(duration))
  }

  /** `speedtestResultJSONAlias`: the exported twin that encoding/json reads and writes. */
  datatype SpeedtestResultJSONAlias = SpeedtestResultJSONAlias(
    JitterLatency: Float64,
    Ping: Float64,
    DownloadSpeed: Float64,
    UploadSpeed: Float64,
    DataUsed: Float64,
    ServerID: string,
    ServerHost: string,
    ClientISP: string,
    ClientIP: string,
    Success: bool,
    Timestamp: Int64,
    Duration: Int64)

  const ZeroAlias: SpeedtestResultJSONAlias :=
    SpeedtestResultJSONAlias(0, 0, 0, 0, 0, "", "", "", "", false, 0, 0)

  /** The alias that `MarshalJSON` fills from a result. */
  function ToAlias(r: SpeedtestResult): SpeedtestResultJSONAlias {
    SpeedtestResultJSONAlias(r.jitterLatency, r.ping, r.downloadSpeed, r.uploadSpeed,
                             r.dataUsed, r.serverID, r.serverHost, r.clientISP, r.clientIP,
                             r.success, r.timestamp, r.duration)
  }

  /** The result that `UnmarshalJSON` assigns from a decoded alias. */
  function FromAlias(a: SpeedtestResultJSONAlias): SpeedtestResult {
    SpeedtestResult(a.JitterLatency, a.Ping, a.DownloadSpeed, a.UploadSpeed, a.DataUsed,
                    a.ServerID, a.ServerHost, a.ClientISP, a.ClientIP, a.Success,
                    a.Timestamp, a.Duration)
  }

  /*
   * JSON text, seen through what encoding/json makes of it. A text is either
   * empty, a JSON object (its members in order), the literal `null`, or
   * something that does not parse.
   */

  datatype JsonValue = JNumber(bits: Float64) | JInteger(n: int) | JString(s: string) | JBool(b: bool) | JNull

  datatype Member = Member(key: string, value: JsonValue)

  datatype Bytes = NoBytes | JsonObject(members: seq<Member>) | JsonNullText | NotJson

  datatype JsonError = UnexpectedEnd | SyntaxError | UnmarshalTypeError | UnsupportedValue

  /** The keys of the alias's struct tags, in field order. */
  const JsonKeys: seq<string> := [
    "jitter_latency_ms", "ping_ms", "download_mbps", "upload_mbps", "data_used_mb",
    "server_id", "server_host", "client_isp", "client_ip", "success", "timestamp",
    "duration_ms"]

  datatype Kind = FloatKind | StringKind | BoolKind | IntKind

  /** The kind of alias field a key is bound to, if any. */
  function KindOf(key: string): Option<Kind> {
    if key == "jitter_latency_ms" || key == "ping_ms" || key == "download_mbps"
       || key == "upload_mbps" || key == "data_used_mb" then Some(FloatKind)
    else if key == "server_id" || key == "server_host" || key == "client_isp"
       || key == "client_ip" then Some(StringKind)
    else if key == "success" then Some(BoolKind)
    else if key == "timestamp" || key == "duration_ms" then Some(IntKind)
    else None
  }

  /** Whether encoding/json accepts `v` for a field of kind `k` (`null` is accepted and ignored). */
  predicate Fits(v: JsonValue, k: Kind) {
    v.JNull? ||
    match k
    case FloatKind => v.JNumber? && IsFinite(v.bits)
    case StringKind => v.JString?
    case BoolKind => v.JBool?
    case IntKind => v.JInteger? && Int64Min <= v.n <= Int64Max
  }

  /** Every member bound to an alias field carries a value of that field's kind. */
  predicate WellTyped(ms: seq<Member>) {
    forall i :: 0 <= i < |ms| && KindOf(ms[i].key).Some? ==> Fits(ms[i].value, KindOf(ms[i].key).value)
  }

  /** The value of the last non-null member with this key: later duplicates overwrite earlier ones. */
  function LastValue(ms: seq<Member>, key: string): Option<JsonValue> {
    if ms == [] then None
    else
      var m := ms[|ms| - 1];
      if m.key == key && !m.value.JNull? then Some(m.value) else LastValue(ms[..|ms| - 1], key)
  }

  function FloatAt(ms: seq<Member>, key: string): Float64 {
    match LastValue(ms, key)
    case Some(JNumber(b)) => b
    case _ => 0
  }

  function StringAt(ms: seq<Member>, key: string): string {
    match LastValue(ms, key)
    case Some(JString(s)) => s
    case _ => ""
  }

  function BoolAt(ms: seq<Member>, key: string): bool {
    match LastValue(ms, key)
    case Some(JBool(b)) => b
    case _ => false
  }

  function IntAt(ms: seq<Member>, key: string): Int64 {
    match LastValue(ms, key)
    case Some(JInteger(n)) => if Int64Min <= n <= Int64Max then n else 0
    case _ => 0
  }

  /** `json.Unmarshal(data, &a)` into a zero alias `a`. */
  function DecodeAlias(data: Bytes): (r: Result<SpeedtestResultJSONAlias, JsonError>)
    ensures data.NoBytes? || data.NotJson? ==> r.Failure?
    ensures data.JsonNullText? ==> r == Success(ZeroAlias)
    ensures data.JsonObject? ==> (r.Success? <==> WellTyped(data.members))
  {
    match data
    case NoBytes => Failure(UnexpectedEnd)
    case NotJson => Failure(SyntaxError)
    case JsonNullText => Success(ZeroAlias)
    case JsonObject(ms) =>
      if !WellTyped(ms) then Failure(UnmarshalTypeError)
      else Success(SpeedtestResultJSONAlias(
        FloatAt(ms, JsonKeys[0]), FloatAt(ms, JsonKeys[1]), FloatAt(ms, JsonKeys[2]),
        FloatAt(ms, JsonKeys[3]), FloatAt(ms, JsonKeys[4]),
        StringAt(ms, JsonKeys[5]), StringAt(ms, JsonKeys[6]), StringAt(ms, JsonKeys[7]),
        StringAt(ms, JsonKeys[8]), BoolAt(ms, JsonKeys[9]),
        IntAt(ms, JsonKeys[10]), IntAt(ms, JsonKeys[11])))
  }

  /** The members `json.MarshalIndent` writes for an alias, one per field, in field order. */
  function Members(a: SpeedtestResultJSONAlias): seq<Member> {
    [Member(JsonKeys[0], JNumber(a.JitterLatency)),
     Member(JsonKeys[1], JNumber(a.Ping)),
     Member(JsonKeys[2], JNumber(a.DownloadSpeed)),
     Member(JsonKeys[3], JNumber(a.UploadSpeed)),
     Member(JsonKeys[4], JNumber(a.DataUsed)),
     Member(JsonKeys[5], JString(a.ServerID)),
     Member(JsonKeys[6], JString(a.ServerHost)),
     Member(JsonKeys[7], JString(a.ClientISP)),
     Member(JsonKeys[8], JString(a.ClientIP)),
     Member(JsonKeys[9], JBool(a.Success)),
     Member(JsonKeys[10], JInteger(a.Timestamp)),
     Member(JsonKeys[11], JInteger(a.Duration))]
  }

  /** `MarshalJSON`: fails, as encoding/json does, when a float field is NaN or infinite. */
  function MarshalJSON(r: SpeedtestResult): (res: Result<Bytes, JsonError>)
    ensures res.Success? <==> r.Marshallable()
    ensures res.Success? ==> res.value.JsonObject? && |res.value.members| == |JsonKeys|
    ensures res.Success? ==> forall i :: 0 <= i < |JsonKeys| ==> res.value.members[i].key == JsonKeys[i]
  {
    if r.Marshallable() then Success(JsonObject(Members(ToAlias(r)))) else Failure(UnsupportedValue)
  }

  /** What `UnmarshalJSON` leaves in its receiver, and the error it returns. */
  datatype UnmarshalOutcome = UnmarshalOutcome(receiver: SpeedtestResult, err: Option<JsonError>)

  /** `receiver.UnmarshalJSON(data)`: the receiver's old value goes in, its new value comes out. */
  function UnmarshalJSON(receiver: SpeedtestResult, data: Bytes): (out: UnmarshalOutcome)
    ensures out.err.Some? <==> DecodeAlias(data).Failure?
    ensures out.err.Some? ==> out.receiver == receiver
    ensures out.err.None? ==> ToAlias(out.receiver) == DecodeAlias(data).value
  {
    match DecodeAlias(data)
    case Failure(e) => UnmarshalOutcome(receiver, Some(e))
    case Success(a) => UnmarshalOutcome(FromAlias(a), None)
  }

  lemma JsonKeysDistinct()
    ensures |JsonKeys| == 12
    ensures forall i, j :: 0 <= i < j < |JsonKeys| ==> JsonKeys[i] != JsonKeys[j]
  {
  }

  /** No two members of an encoded alias share a key, and each key is bound to its own field's kind. */
  lemma MembersShape(a: SpeedtestResultJSONAlias)
    ensures |Members(a)| == |JsonKeys|
    ensures forall i :: 0 <= i < |JsonKeys| ==> Members(a)[i].key == JsonKeys[i]
    ensures forall i, j :: 0 <= i < j < |Members(a)| ==> Members(a)[i].key != Members(a)[j].key
  {
    JsonKeysDistinct();
  }

  /** The only non-null member under a key decides that key's value. */
  lemma {:induction false} LastValueOfUnique(ms: seq<Member>, i: nat)
    requires i < |ms| && !ms[i].value.JNull?
    requires forall j :: 0 <= j < |ms| && j != i ==> ms[j].key != ms[i].key
    ensures LastValue(ms, ms[i].key) == Some(ms[i].value)
  {
    if i < |ms| - 1 {
      var prefix := ms[..|ms| - 1];
      forall j | 0 <= j < |prefix| && j != i
        ensures prefix[j].key != prefix[i].key
      {
        assert prefix[j] == ms[j] && prefix[i] == ms[i];
      }
      LastValueOfUnique(prefix, i);
      assert prefix[i] == ms[i];
    }
  }

  /** The kind each alias key is bound to: five floats, four strings, a bool, two integers. */
  lemma KeyKinds()
    ensures forall i :: 0 <= i < 5 ==> KindOf(JsonKeys[i]) == Some(FloatKind)
    ensures forall i :: 5 <= i < 9 ==> KindOf(JsonKeys[i]) == Some(StringKind)
    ensures KindOf(JsonKeys[9]) == Some(BoolKind)
    ensures KindOf(JsonKeys[10]) == Some(IntKind) && KindOf(JsonKeys[11]) == Some(IntKind)
  {
  }

  /** The members written for an alias with finite floats are all of their field's kind. */
  lemma MembersWellTyped(a: SpeedtestResultJSONAlias)
    requires IsFinite(a.JitterLatency) && IsFinite(a.Ping) && IsFinite(a.DownloadSpeed)
    requires IsFinite(a.UploadSpeed) && IsFinite(a.DataUsed)
    ensures WellTyped(Members(a))
  {
    var ms := Members(a);
    MembersShape(a);
    KeyKinds();
    forall i | 0 <= i < |ms| && KindOf(ms[i].key).Some?
      ensures Fits(ms[i].value, KindOf(ms[i].key).value)
    {
      assert ms[i].key == JsonKeys[i];
    }
  }

  /** In the members written for an alias, each key's value is the one written under it. */
  lemma {:induction false} MembersLastValues(a: SpeedtestResultJSONAlias)
    ensures forall i :: 0 <= i < |JsonKeys| ==> LastValue(Members(a), JsonKeys[i]) == Some(Members(a)[i].value)
  {
    var ms := Members(a);
    MembersShape(a);
    forall i | 0 <= i < |JsonKeys|
      ensures LastValue(ms, JsonKeys[i]) == Some(ms[i].value)
    {
      LastValueOfUnique(ms, i);
    }
  }

  /** Decoding the members written for an alias with finite floats gives that alias back. */
  lemma {:induction false} DecodeMembers(a: SpeedtestResultJSONAlias)
    requires IsFinite(a.JitterLatency) && IsFinite(a.Ping) && IsFinite(a.DownloadSpeed)
    requires IsFinite(a.UploadSpeed) && IsFinite(a.DataUsed)
    ensures DecodeAlias(JsonObject(Members(a))) == Success(a)
  {
    var ms := Members(a);
    MembersWellTyped(a);
    MembersLastValues(a);
    assert FloatAt(ms, JsonKeys[0]) == a.JitterLatency;
    assert FloatAt(ms, JsonKeys[1]) == a.Ping;
    assert FloatAt(ms, JsonKeys[2]) == a.DownloadSpeed;
    assert FloatAt(ms, JsonKeys[3]) == a.UploadSpeed;
    assert FloatAt(ms, JsonKeys[4]) == a.DataUsed;
    assert StringAt(ms, JsonKeys[5]) == a.ServerID;
    assert StringAt(ms, JsonKeys[6]) == a.ServerHost;
    assert StringAt(ms, JsonKeys[7]) == a.ClientISP;
    assert StringAt(ms, JsonKeys[8]) == a.ClientIP;
    assert BoolAt(ms, JsonKeys[9]) == a.Success;
    assert IntAt(ms, JsonKeys[10]) == a.Timestamp;
    assert IntAt(ms, JsonKeys[11]) == a.Duration;
  }

  /** Round trip: whatever the receiver held, decoding a marshalled result restores it in every field. */
  lemma MarshalRoundTrip(r: SpeedtestResult, receiver: SpeedtestResult)
    requires r.Marshallable()
    ensures MarshalJSON(r).Success?
    ensures UnmarshalJSON(receiver, MarshalJSON(r).value) == UnmarshalOutcome(r, None)
  {
    DecodeMembers(ToAlias(r));
  }

  /** `MarshalJSON` writes each of the twelve fields under its own key, and no key twice. */
  lemma MarshalKeysOneToOne(r: SpeedtestResult)
    requires r.Marshallable()
    ensures MarshalJSON(r).Success?
    ensures var ms := MarshalJSON(r).value.members;
      |ms| == 12
      && (forall i, j :: 0 <= i < j < |ms| ==> ms[i].key != ms[j].key)
      && ms[0].value == JNumber(r.jitterLatency) && ms[1].value == JNumber(r.ping)
      && ms[2].value == JNumber(r.downloadSpeed) && ms[3].value == JNumber(r.uploadSpeed)
      && ms[4].value == JNumber(r.dataUsed) && ms[5].value == JString(r.serverID)
      && ms[6].value == JString(r.serverHost) && ms[7].value == JString(r.clientISP)
      && ms[8].value == JString(r.clientIP) && ms[9].value == JBool(r.success)
      && ms[10].value == JInteger(r.timestamp) && ms[11].value == JInteger(r.duration)
  {
    MembersShape(ToAlias(r));
  }
}
