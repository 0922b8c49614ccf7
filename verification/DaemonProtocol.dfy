/** The daemon's messages and their JSON form (src/daemon_protocol.cpp). */
module DaemonProtocol {
  import opened JsonTree

  datatype DaemonProcessState = Starting | Ready | Stopping | Failed

  datatype SessionLifecycleState = Disabled | Enabling | Enabled | Disabling | Degraded

  datatype HealthState = HealthOk | HealthDegraded | HealthFailed

  /** A floating-point number as far as the daemon distinguishes them. */
  datatype Float = Finite(v: real) | PosInf | NegInf | NaN

  const UNITY := Finite(1.0)

  datatype DesiredState = DesiredState(presetPath: string, sinkSelector: string, enabled: bool, bypass: bool,
                                       volume: Float)

  datatype EffectiveState = EffectiveState(
    sessionActive: bool,
    presetOrigin: string,
    sinkName: string,
    sinkSerial: Word64,
    activePlugins: seq<string>,
    bypass: bool,
    volume: Float)

  datatype DaemonStatus = DaemonStatus(
    daemonState: DaemonProcessState,
    sessionState: SessionLifecycleState,
    desired: DesiredState,
    effective: EffectiveState,
    health: HealthState,
    lastError: string,
    version: string,
    pid: Int32,
    startedAt: string)

  datatype DaemonRequest = DaemonRequest(command: string, presetPath: string, sinkSelector: string)

  datatype DaemonResponse = DaemonResponse(ok: bool, error: string, status: DaemonStatus, sinks: seq<string>)

  const NoDesired := DesiredState("", "", false, false, UNITY)
  const NoEffect := EffectiveState(false, "", "", 0, [], false, UNITY)
  const NoStatus := DaemonStatus(Starting, Disabled, NoDesired, NoEffect, HealthOk, "", "", 0, "")

  function DaemonStateName(s: DaemonProcessState): string {
    match s
    case Starting => "starting"
    case Ready => "ready"
    case Stopping => "stopping"
    case Failed => "failed"
  }

  function SessionStateName(s: SessionLifecycleState): string {
    match s
    case Disabled => "disabled"
    case Enabling => "enabling"
    case Enabled => "enabled"
    case Disabling => "disabling"
    case Degraded => "degraded"
  }

  function HealthName(s: HealthState): string {
    match s
    case HealthOk => "ok"
    case HealthDegraded => "degraded"
    case HealthFailed => "failed"
  }

  function ParseDaemonState(s: string): DaemonProcessState {
    if s == "ready" then Ready else if s == "starting" then Starting else if s == "stopping" then Stopping else Failed
  }

  function ParseSessionState(s: string): SessionLifecycleState {
    if s == "enabled" then Enabled
    else if s == "enabling" then Enabling
    else if s == "disabling" then Disabling
    else if s == "degraded" then Degraded
    else Disabled
  }

  function ParseHealth(s: string): HealthState {
    if s == "ok" then HealthOk else if s == "degraded" then HealthDegraded else HealthFailed
  }

  /** Numbers that are not finite have no JSON text; they are written as null. */
  function EncodeFloat(f: Float): Json {
    if f.Finite? then Real(f.v) else Null
  }

  /** A single-precision field also takes a truth value, as one or zero. */
  function AsFloat(j: Json): Result<Float> {
    if j.Bool? then Ok(Finite(if j.b then 1.0 else 0.0))
    else
      var r :- AsReal(j);
      Ok(Finite(r))
  }

  function GetFloat(j: Json, key: string, default: Float): Result<Float> {
    if !j.Obj? then Err else if key in j.fields then AsFloat(j.fields[key]) else Ok(default)
  }

  function EncodeDesired(d: DesiredState): Json {
    Obj(map["preset_path" := Str(d.presetPath), "sink_selector" := Str(d.sinkSelector), "enabled" := Bool(d.enabled),
            "bypass" := Bool(d.bypass), "volume" := EncodeFloat(d.volume)])
  }

  function DecodeDesired(j: Json): Result<DesiredState> {
    var path :- GetString(j, "preset_path", "");
    var sink :- GetString(j, "sink_selector", "");
    var enabled :- GetBool(j, "enabled", false);
    var bypass :- GetBool(j, "bypass", false);
    var volume :- GetFloat(j, "volume", UNITY);
    Ok(DesiredState(path, sink, enabled, bypass, volume))
  }

  function EncodeEffective(e: EffectiveState): Json {
    Obj(map["session_active" := Bool(e.sessionActive), "preset_origin" := Str(e.presetOrigin),
            "sink_name" := Str(e.sinkName), "sink_serial" := Int(e.sinkSerial),
            "active_plugins" := Arr(Strings(e.activePlugins)),
            "bypass" := Bool(e.bypass), "volume" := EncodeFloat(e.volume)])
  }

  function DecodeEffective(j: Json): Result<EffectiveState> {
    var active :- GetBool(j, "session_active", false);
    var origin :- GetString(j, "preset_origin", "");
    var name :- GetString(j, "sink_name", "");
    var serial :- GetWord64(j, "sink_serial", 0);
    var plugins :- GetStrings(j, "active_plugins");
    var bypass :- GetBool(j, "bypass", false);
    var volume :- GetFloat(j, "volume", UNITY);
    Ok(EffectiveState(active, origin, name, serial, plugins, bypass, volume))
  }

  function EncodeStatus(s: DaemonStatus): Json {
    Obj(map[
      "daemon" := Obj(map["state" := Str(DaemonStateName(s.daemonState)), "version" := Str(s.version),
                          "pid" := Int(s.pid), "started_at" := Str(s.startedAt)]),
      "session" := Obj(map["state" := Str(SessionStateName(s.sessionState))]),
      "desired" := EncodeDesired(s.desired),
      "effective" := EncodeEffective(s.effective),
      "health" := Str(HealthName(s.health)),
      "last_error" := Str(s.lastError)])
  }

  function DecodeStatus(j: Json): Result<DaemonStatus> {
    var daemon :- Field(j, "daemon");
    var session :- Field(j, "session");
    var desiredJson :- Field(j, "desired");
    var effectiveJson :- Field(j, "effective");
    var daemonState :- GetString(daemon, "state", "failed");
    var sessionState :- GetString(session, "state", "disabled");
    var desired :- DecodeDesired(desiredJson);
    var effective :- DecodeEffective(effectiveJson);
    var health :- GetString(j, "health", "failed");
    var lastError :- GetString(j, "last_error", "");
    var version :- GetString(daemon, "version", "");
    var pid :- GetInt32(daemon, "pid", 0);
    var startedAt :- GetString(daemon, "started_at", "");
    Ok(DaemonStatus(ParseDaemonState(daemonState), ParseSessionState(sessionState), desired, effective,
                    ParseHealth(health), lastError, version, pid, startedAt))
  }

  function EncodeRequest(r: DaemonRequest): Json {
    Obj(map["command" := Str(r.command), "preset_path" := Str(r.presetPath), "sink_selector" := Str(r.sinkSelector)])
  }

  function DecodeRequest(j: Json): Result<DaemonRequest> {
    var command :- GetString(j, "command", "");
    var path :- GetString(j, "preset_path", "");
    var sink :- GetString(j, "sink_selector", "");
    Ok(DaemonRequest(command, path, sink))
  }

  /** The status is sent only when one of these fields differs from its default. */
  predicate SendsStatus(s: DaemonStatus) {
    || s.version != "" || s.pid != 0 || s.daemonState != Starting || s.sessionState != Disabled || s.lastError != ""
    || s.desired.presetPath != "" || s.effective.presetOrigin != "" || s.effective.sessionActive
  }

  function EncodeResponse(r: DaemonResponse): Json {
    var always := map["ok" := Bool(r.ok), "error" := Str(r.error)];
    var withSinks := if r.sinks != [] then always["sinks" := Arr(Strings(r.sinks))] else always;
    Obj(if SendsStatus(r.status) then withSinks["status" := EncodeStatus(r.status)] else withSinks)
  }

  function DecodeResponse(j: Json): Result<DaemonResponse> {
    var ok :- GetBool(j, "ok", false);
    var error :- GetString(j, "error", "");
    var sinks :- GetStrings(j, "sinks");
    if Has(j, "status") then
      var status :- DecodeStatus(j.fields["status"]);
      Ok(DaemonResponse(ok, error, status, sinks))
    else Ok(DaemonResponse(ok, error, NoStatus, sinks))
  }

  /** The client receives exactly the response that was sent. */
  ghost predicate Intact(r: DaemonResponse) {
    DecodeResponse(EncodeResponse(r)) == Ok(r)
  }

  lemma StateNamesRoundTrip(d: DaemonProcessState, s: SessionLifecycleState, h: HealthState)
    ensures ParseDaemonState(DaemonStateName(d)) == d
    ensures ParseSessionState(SessionStateName(s)) == s
    ensures ParseHealth(HealthName(h)) == h
  {
  }

  /** A name that is not known means a failed daemon, a disabled session, a failed health. */
  lemma UnknownNames(name: string)
    ensures (forall s :: DaemonStateName(s) != name) ==> ParseDaemonState(name) == Failed
    ensures (forall s :: SessionStateName(s) != name) ==> ParseSessionState(name) == Disabled
    ensures (forall s :: HealthName(s) != name) ==> ParseHealth(name) == HealthFailed
  {
    assert DaemonStateName(Ready) == "ready" && DaemonStateName(Starting) == "starting"
           && DaemonStateName(Stopping) == "stopping";
    assert SessionStateName(Enabled) == "enabled" && SessionStateName(Enabling) == "enabling"
           && SessionStateName(Disabling) == "disabling" && SessionStateName(Degraded) == "degraded";
    assert HealthName(HealthOk) == "ok" && HealthName(HealthDegraded) == "degraded";
  }

  /** The names under which the fields of a message are found. */
  lemma RequestIsRead(j: Json, r: DaemonRequest)
    requires Field(j, "command") == Ok(Str(r.command))
    requires Field(j, "preset_path") == Ok(Str(r.presetPath)) && Field(j, "sink_selector") == Ok(Str(r.sinkSelector))
    ensures DecodeRequest(j) == Ok(r)
  {
  }

  lemma DesiredIsRead(j: Json, d: DesiredState)
    requires Field(j, "preset_path") == Ok(Str(d.presetPath)) && Field(j, "sink_selector") == Ok(Str(d.sinkSelector))
    requires Field(j, "enabled") == Ok(Bool(d.enabled)) && Field(j, "bypass") == Ok(Bool(d.bypass))
    requires d.volume.Finite? && Field(j, "volume") == Ok(Real(d.volume.v))
    ensures DecodeDesired(j) == Ok(d)
  {
  }

  lemma EffectiveIsRead(j: Json, e: EffectiveState)
    requires Field(j, "session_active") == Ok(Bool(e.sessionActive)) && Field(j, "bypass") == Ok(Bool(e.bypass))
    requires Field(j, "preset_origin") == Ok(Str(e.presetOrigin)) && Field(j, "sink_name") == Ok(Str(e.sinkName))
    requires Field(j, "sink_serial") == Ok(Int(e.sinkSerial))
    requires Field(j, "active_plugins") == Ok(Arr(Strings(e.activePlugins)))
    requires e.volume.Finite? && Field(j, "volume") == Ok(Real(e.volume.v))
    ensures DecodeEffective(j) == Ok(e)
  {
    StringsRoundTrip(e.activePlugins);
  }

  lemma StatusIsRead(j: Json, daemon: Json, session: Json, s: DaemonStatus)
    requires Field(j, "daemon") == Ok(daemon) && Field(j, "session") == Ok(session)
    requires Field(daemon, "state") == Ok(Str(DaemonStateName(s.daemonState)))
    requires Field(daemon, "version") == Ok(Str(s.version)) && Field(daemon, "pid") == Ok(Int(s.pid))
    requires Field(daemon, "started_at") == Ok(Str(s.startedAt))
    requires Field(session, "state") == Ok(Str(SessionStateName(s.sessionState)))
    requires Field(j, "desired").Ok? && DecodeDesired(Field(j, "desired").value) == Ok(s.desired)
    requires Field(j, "effective").Ok? && DecodeEffective(Field(j, "effective").value) == Ok(s.effective)
    requires Field(j, "health") == Ok(Str(HealthName(s.health))) && Field(j, "last_error") == Ok(Str(s.lastError))
    ensures DecodeStatus(j) == Ok(s)
  {
    hide DecodeDesired, DecodeEffective, ParseDaemonState, ParseSessionState, ParseHealth, DaemonStateName,
         SessionStateName, HealthName;
    StateNamesRoundTrip(s.daemonState, s.sessionState, s.health);
  }

  /** What stands for a field that is missing. A status must have its four sections. */
  lemma MissingFields()
    ensures DecodeRequest(Obj(map[])) == Ok(DaemonRequest("", "", ""))
    ensures DecodeDesired(Obj(map[])) == Ok(NoDesired) && DecodeEffective(Obj(map[])) == Ok(NoEffect)
    ensures DecodeResponse(Obj(map[])) == Ok(DaemonResponse(false, "", NoStatus, []))
  {
  }

  lemma MissingSections(j: Json)
    ensures DecodeStatus(j).Ok? ==> Has(j, "daemon") && Has(j, "session") && Has(j, "desired") && Has(j, "effective")
    ensures var empty := Obj(map[]);
            j == Obj(map["daemon" := empty, "session" := empty, "desired" := empty, "effective" := empty]) ==>
              DecodeStatus(j) == Ok(DaemonStatus(Failed, Disabled, NoDesired, NoEffect, HealthFailed, "", "", 0, ""))
  {
    hide DecodeDesired, DecodeEffective;
    MissingFields();
  }

  /** The status is left out exactly when it differs from the initial one at most in fields that do not count. */
  lemma WhenStatusIsSent(r: DaemonResponse)
    ensures var s := r.status;
            !Has(EncodeResponse(r), "status")
            <==> s == NoStatus.(desired := s.desired.(presetPath := ""), health := s.health, startedAt := s.startedAt,
                                effective := s.effective.(presetOrigin := "", sessionActive := false))
    ensures Has(EncodeResponse(r), "sinks") <==> r.sinks != []
  {
    hide EncodeStatus;
  }

  predicate FiniteVolumes(s: DaemonStatus) {
    s.desired.volume.Finite? && s.effective.volume.Finite?
  }

  lemma DesiredRoundTrip(d: DesiredState)
    ensures DecodeDesired(EncodeDesired(d)) == if d.volume.Finite? then Ok(d) else Err
  {
  }

  lemma EffectiveRoundTrip(e: EffectiveState)
    ensures DecodeEffective(EncodeEffective(e)) == if e.volume.Finite? then Ok(e) else Err
  {
    StringsRoundTrip(e.activePlugins);
  }

  /** A status is decoded to itself when its volumes are finite, and is not decoded at all otherwise. */
  lemma StatusRoundTrip(s: DaemonStatus)
    ensures DecodeStatus(EncodeStatus(s)) == if FiniteVolumes(s) then Ok(s) else Err
  {
    hide EncodeDesired, DecodeDesired, EncodeEffective, DecodeEffective;
    DesiredRoundTrip(s.desired);
    EffectiveRoundTrip(s.effective);
    StateNamesRoundTrip(s.daemonState, s.sessionState, s.health);
  }

  lemma RequestRoundTrip(r: DaemonRequest)
    ensures DecodeRequest(EncodeRequest(r)) == Ok(r)
  {
  }

  /** Exactly which responses survive the trip: those whose status is sent with finite volumes, and those whose status
      is the default one and therefore need not be sent. */
  lemma ResponseRoundTrip(r: DaemonResponse)
    ensures Intact(r) <==>
              if SendsStatus(r.status) then FiniteVolumes(r.status) else r.status == NoStatus
  {
    hide EncodeStatus, DecodeStatus;
    StringsRoundTrip(r.sinks);
    StatusRoundTrip(r.status);
  }

  /** A daemon that has started always sends its status, so only a volume that is not finite can spoil its response, and
      then the client can decode nothing of it. */
  lemma StartedDaemonRoundTrip(r: DaemonResponse)
    requires r.status.daemonState != Starting
    ensures DecodeResponse(EncodeResponse(r)) == if FiniteVolumes(r.status) then Ok(r) else Err
  {
    hide EncodeStatus, DecodeStatus;
    StringsRoundTrip(r.sinks);
    StatusRoundTrip(r.status);
  }
}
