/** The daemon's controller, step by step as in src/daemon_controller.cpp: it updates its status and its remembered
    configuration and drives the session backend. Every command is proved to be one step of `ConfigMachine`, to keep
    controller and backend in agreement, and to answer with a sound status. */
module DaemonController {
  import opened Basics
  import opened ConfigMachine
  import opened DaemonProtocol
  import opened SessionBackend
  import JsonTree

  const APPLY_USAGE := "apply requires a preset path; usage: eq-cli apply <preset>"
  const NO_PRESET := "no preset loaded; run 'eq-cli apply <preset>' first"
  const NO_SESSION := "no active session; run 'eq-cli apply <preset>' to start one"
  const SWITCH_USAGE := "switch-sink requires a sink name or serial; usage: eq-cli switch-sink <name-or-serial>"
  const BYPASS_USAGE := "bypass requires on or off; usage: eq-cli bypass on|off"
  const VOLUME_USAGE := "volume requires a number; usage: eq-cli volume <0.0-1.5>"
  const VOLUME_RANGE := "volume out of range; must be 0.0 to 1.5"

  /** What a status says of the daemon itself. */
  datatype Identity = Identity(state: DaemonProcessState, version: string, pid: JsonTree.Int32, startedAt: string)

  function IdentityOf(s: DaemonStatus): Identity {
    Identity(s.daemonState, s.version, s.pid, s.startedAt)
  }

  class Controller {
    const backend: Backend
    var status: DaemonStatus
    var desired: Option<Config>
    var initErrorDegraded: bool

    /** A router runs with this preset, on this sink, with these settings. */
    ghost predicate Plays(c: Config)
      reads this, backend
    {
      && backend.router == Some(LiveRouter(c.preset, c.sinkSelector, c.bypass, c.volume))
      && backend.presetOrigin == c.presetOrigin
    }

    /** A running router is wanted and runs with the remembered preset, sink and settings. */
    ghost predicate Agrees()
      reads this, backend
    {
      backend.router.Some? ==> desired.Some? && desired.value.enabled && Plays(desired.value)
    }

    /** A refused start has left this configuration remembered, and running exactly if its second start succeeds. */
    ghost predicate Returned(previous: Option<Config>, e: Env)
      requires previous.Some?
      reads this, backend
    {
      && desired == previous
      && (backend.router.Some? <==> e.second.Starts?)
      && (e.second.Starts? ==> Plays(previous.value))
    }

    ghost predicate Valid()
      reads this, backend
    {
      && Agrees()
      && !status.daemonState.Starting?
      && (status.sessionState.Disabled? || status.sessionState.Enabled? || status.sessionState.Degraded?)
      && (status.sessionState.Enabled? ==> backend.router.Some?)
      && (!(desired.Some? && desired.value.enabled) ==> status.effective == NoEffect)
    }

    ghost function Abs(): Machine
      reads this, backend
    {
      Machine(desired, backend.router.Some?, backend.router.Some? && !backend.workerFailed,
              status.sessionState.Enabled?)
    }

    constructor (backend: Backend, version: string, pid: JsonTree.Int32, startedAt: string)
      requires backend.router.None?
      ensures Valid() && Abs() == Initial && this.backend == backend
      ensures IdentityOf(status) == Identity(Ready, version, pid, startedAt)
    {
      this.backend := backend;
      status := NoStatus.(daemonState := Ready, version := version, pid := pid, startedAt := startedAt);
      desired, initErrorDegraded := None, false;
    }

    function DesiredSection(): DesiredState
      reads this
    {
      if desired.None? then NoDesired
      else DesiredState(desired.value.presetPath, desired.value.sinkSelector, desired.value.enabled,
                        desired.value.bypass, desired.value.volume)
    }

    /** The status sent with every answer: while a session is wanted, a fresh look at the backend overrides the rest. */
    function StatusNow(runtime: Runtime): DaemonStatus
      reads this, backend
    {
      var base := status.(desired := DesiredSection());
      if desired.None? || !desired.value.enabled then base
      else
        var snapshot := backend.TakeSnapshot(runtime);
        var seen := base.(effective := snapshot.effective);
        if !snapshot.effective.sessionActive then seen.(sessionState := Degraded, health := HealthDegraded)
        else if snapshot.initError != "" then
          seen.(sessionState := Enabled, health := HealthDegraded, lastError := snapshot.initError)
        else if initErrorDegraded then seen.(sessionState := Enabled, health := HealthOk, lastError := "")
        else seen.(sessionState := Enabled)
    }

    /** What a client may rely on in a reported status: no transitional state; Enabled exactly when a session is
        wanted and the backend, asked for this very status, has one, and Degraded when it has none; an active session
        shows the remembered origin, bypass and volume, what the router reports, and the error of a filter; and without
        a session the effective section is the default one. */
    ghost predicate Sound(s: DaemonStatus, runtime: Runtime)
      reads this, backend
    {
      && !s.sessionState.Enabling? && !s.sessionState.Disabling? && !s.daemonState.Starting?
      && IdentityOf(s) == IdentityOf(status)
      && (s.sessionState.Enabled? <==> desired.Some? && desired.value.enabled && s.effective.sessionActive)
      && (s.effective.sessionActive <==>
            desired.Some? && desired.value.enabled && backend.router.Some? && !backend.workerFailed)
      && (s.effective.sessionActive ==>
            && s.effective.presetOrigin == desired.value.presetOrigin
            && s.effective.bypass == desired.value.bypass
            && s.effective.volume == desired.value.volume
            && s.effective.sinkName == runtime.sinkName && s.effective.sinkSerial == runtime.sinkSerial
            && s.effective.activePlugins == runtime.activePlugins
            && (runtime.initError != "" ==> s.health.HealthDegraded? && s.lastError == runtime.initError))
      && (!s.effective.sessionActive ==> s.effective == NoEffect)
      && (desired.Some? && desired.value.enabled && !s.effective.sessionActive ==>
            s.sessionState.Degraded? && s.health.HealthDegraded?)
      && s.desired == (if desired.None? then NoDesired else
                         DesiredState(desired.value.presetPath, desired.value.sinkSelector, desired.value.enabled,
                                      desired.value.bypass, desired.value.volume))
    }

    lemma StatusIsSound(runtime: Runtime)
      requires Valid()
      ensures Sound(StatusNow(runtime), runtime)
    {
    }

    lemma ActiveIsReported(s: DaemonStatus, runtime: Runtime)
      requires Valid() && Sound(s, runtime)
      ensures s.effective.sessionActive <==> Abs().active
    {
    }

    /** The volumes of a status are finite exactly when the volume accepted last is. */
    lemma VolumesOfStatus(s: DaemonStatus, runtime: Runtime, a: Accepted)
      requires Sound(s, runtime) && Remembers(Abs(), a)
      ensures FiniteVolumes(s) <==> a.volume.Finite?
    {
    }

    function Answer(ok: bool, error: string, runtime: Runtime): DaemonResponse
      reads this, backend
    {
      DaemonResponse(ok, error, StatusNow(runtime), [])
    }

    /** What an accepted start reports: healthy, unless the worker or a filter failed meanwhile. */
    ghost predicate ReportsStart(answer: DaemonResponse, e: Env) {
      var s := answer.status;
      && answer.ok && answer.error == ""
      && s.health == (if s.effective.sessionActive && e.runtime.initError == "" then HealthOk else HealthDegraded)
      && s.lastError == (if s.effective.sessionActive then e.runtime.initError else "")
    }

    /** What a refused start reports: the error of the first attempt, in the status too unless a filter's error takes
        its place there. A filter that failed when the old session settled and works now even makes the session look
        healthy. */
    ghost predicate ReportsRefusal(answer: DaemonResponse, e: Env)
      requires e.first.Refuses?
    {
      var s := answer.status;
      && !answer.ok && answer.error == e.first.error
      && (!s.effective.sessionActive ==>
            s.sessionState.Degraded? && s.health.HealthDegraded? && s.lastError == e.first.error)
      && (s.effective.sessionActive ==>
            if e.runtime.initError != "" then s.health.HealthDegraded? && s.lastError == e.runtime.initError
            else if e.settling.initError != "" then s.health.HealthOk? && s.lastError == ""
            else s.health.HealthDegraded? && s.lastError == e.first.error)
    }

    lemma AcceptedStartIsReported(e: Env)
      requires Valid() && desired.Some? && desired.value.enabled
      requires status.health.HealthOk? && status.lastError == ""
      ensures Sound(StatusNow(e.runtime), e.runtime) && ReportsStart(Answer(true, "", e.runtime), e)
    {
    }

    lemma RefusedStartIsReported(e: Env)
      requires Valid() && e.first.Refuses?
      requires status.health.HealthDegraded? && status.lastError == e.first.error
      requires backend.router.Some? && !backend.workerFailed ==> (initErrorDegraded <==> e.settling.initError != "")
      requires !(desired.Some? && desired.value.enabled) ==> status.sessionState.Degraded?
      ensures Sound(StatusNow(e.runtime), e.runtime) && ReportsRefusal(Answer(false, e.first.error, e.runtime), e)
    {
    }

    /** Hands the remembered settings to a fresh router and records what the backend shows. */
    method Settle(e: Env)
      requires desired.Some? && desired.value.enabled
      requires backend.router == Some(LiveRouter(desired.value.preset, desired.value.sinkSelector, false, UNITY))
      requires backend.presetOrigin == desired.value.presetOrigin && !status.daemonState.Starting?
      modifies this`status, this`initErrorDegraded, backend`router, backend`workerFailed
      ensures Valid() && backend.router.Some?
      ensures IdentityOf(status) == IdentityOf(old(status))
      ensures Abs() == Machine(desired, true, !old(backend.workerFailed) && !e.workerDiesLater,
                               !old(backend.workerFailed))
      ensures backend.workerFailed <==> old(backend.workerFailed) || e.workerDiesLater
      ensures initErrorDegraded <==> !old(backend.workerFailed) && e.settling.initError != ""
    {
      if desired.value.bypass {
        backend.SetBypass(true);
      }
      if desired.value.volume != UNITY {
        backend.SetVolume(desired.value.volume);
      }
      var snapshot := backend.TakeSnapshot(e.settling);
      status := status.(effective := snapshot.effective,
                        sessionState := if snapshot.effective.sessionActive then Enabled else Disabled);
      if snapshot.initError != "" {
        status := status.(health := HealthDegraded, lastError := snapshot.initError);
        initErrorDegraded := true;
      } else if initErrorDegraded {
        status := status.(health := HealthOk, lastError := "");
        initErrorDegraded := false;
      }
      if e.workerDiesLater {
        backend.FailWorker();
      }
    }

    method SetHealth(health: HealthState, error: string)
      requires Valid()
      modifies this`status
      ensures Valid() && Abs() == old(Abs()) && status == old(status).(health := health, lastError := error)
    {
      status := status.(health := health, lastError := error);
    }

    /** No session runs; the session is degraded. */
    method GiveUp(error: string)
      requires backend.router.None? && !status.daemonState.Starting?
      modifies this`status
      ensures Valid() && Abs() == Stopped(desired)
      ensures IdentityOf(status) == IdentityOf(old(status))
      ensures status.effective == NoEffect && status.sessionState.Degraded?
      ensures status.health.HealthDegraded? && status.lastError == error
    {
      status := status.(effective := NoEffect, sessionState := Degraded, health := HealthDegraded, lastError := error);
    }

    /** After an accepted start: settles it and answers. */
    method Accept(e: Env) returns (answer: DaemonResponse)
      requires desired.Some? && desired.value.enabled
      requires backend.router == Some(LiveRouter(desired.value.preset, desired.value.sinkSelector, false, UNITY))
      requires backend.presetOrigin == desired.value.presetOrigin && !status.daemonState.Starting?
      modifies this`status, this`initErrorDegraded, backend`router, backend`workerFailed
      ensures Valid() && Plays(desired.value)
      ensures IdentityOf(status) == IdentityOf(old(status))
      ensures Abs() == Machine(desired, true, !old(backend.workerFailed) && !e.workerDiesLater,
                               !old(backend.workerFailed))
      ensures answer.ok && Sound(answer.status, e.runtime) && ReportsStart(answer, e) && answer.sinks == []
      ensures answer.status.effective.sessionActive <==> !old(backend.workerFailed) && !e.workerDiesLater
    {
      hide StatusNow, Sound, ReportsStart, ReportsRefusal;
      Settle(e);
      SetHealth(HealthOk, "");
      AcceptedStartIsReported(e);
      answer := Answer(true, "", e.runtime);
      ActiveIsReported(answer.status, e.runtime);
    }

    method Apply(r: DaemonRequest, e: Env) returns (answer: DaemonResponse)
      requires Valid()
      modifies this, backend
      ensures Valid() && (Abs(), answer.ok) == ConfigMachine.Apply(old(Abs()), r, e)
      ensures IdentityOf(status) == IdentityOf(old(status))
      ensures Sound(answer.status, e.runtime) && answer.sinks == []
      ensures r.presetPath != "" && e.load.Loads? ==>
                if e.first.Starts? then ReportsStart(answer, e) else ReportsRefusal(answer, e)
      ensures r.presetPath != "" && e.load.Loads? && e.first.Refuses? && WantsSession(old(Abs())) ==>
                Returned(old(desired), e)
    {
      hide StatusNow, Sound, ReportsStart, ReportsRefusal;
      if r.presetPath == "" {
        StatusIsSound(e.runtime);
        return Answer(false, APPLY_USAGE, e.runtime);
      }
      if e.load.LoadFails? {
        StatusIsSound(e.runtime);
        return Answer(false, e.load.error, e.runtime);
      }
      var candidate := Config(r.presetPath, e.load.origin, e.load.preset, r.sinkSelector, true, false, UNITY);
      if desired.Some? {
        candidate := candidate.(bypass := desired.value.bypass, volume := desired.value.volume);
      }
      var previous := desired;
      status := status.(sessionState := Enabling);
      if desired.Some? && desired.value.enabled {
        backend.StopSession();
      }
      var started := backend.StartSession(candidate.preset, candidate.presetOrigin, candidate.sinkSelector, e.first);
      if !started {
        if previous.Some? && previous.value.enabled {
          answer := RollBack(e);
          return;
        }
        desired := previous;
        GiveUp(e.first.error);
        RefusedStartIsReported(e);
        return Answer(false, e.first.error, e.runtime);
      }
      desired := Some(candidate);
      answer := Accept(e);
    }

    /** After a refused start: tries the configuration that is still remembered once more. */
    method RollBack(e: Env) returns (answer: DaemonResponse)
      requires desired.Some? && desired.value.enabled && backend.router.None? && e.first.Refuses?
      requires !status.daemonState.Starting?
      modifies this`status, this`initErrorDegraded, backend
      ensures Valid() && Abs() == FallBack(desired.value, e) && Returned(old(desired), e)
      ensures IdentityOf(status) == IdentityOf(old(status))
      ensures !answer.ok && Sound(answer.status, e.runtime) && ReportsRefusal(answer, e) && answer.sinks == []
    {
      hide StatusNow, Sound, ReportsStart, ReportsRefusal;
      var c := desired.value;
      var restored := backend.StartSession(c.preset, c.presetOrigin, c.sinkSelector, e.second);
      if restored {
        Settle(e);
        SetHealth(HealthDegraded, e.first.error);
      } else {
        GiveUp(e.first.error);
      }
      RefusedStartIsReported(e);
      answer := Answer(false, e.first.error, e.runtime);
    }

    method Enable(e: Env) returns (answer: DaemonResponse)
      requires Valid()
      modifies this, backend
      ensures Valid() && (Abs(), answer.ok) == ConfigMachine.Enable(old(Abs()), e)
      ensures IdentityOf(status) == IdentityOf(old(status))
      ensures Sound(answer.status, e.runtime) && answer.sinks == []
      ensures old(desired).Some? && !(old(desired).value.enabled && old(status).sessionState.Enabled?) ==>
                if e.first.Starts? then ReportsStart(answer, e) else ReportsRefusal(answer, e)
      ensures answer.ok ==>
                (answer.status.effective.sessionActive <==>
                   if old(desired).Some? && old(desired).value.enabled && old(status).sessionState.Enabled? then
                     !old(backend.workerFailed)
                   else !e.first.workerDies && !e.workerDiesLater)
    {
      hide StatusNow, Sound, ReportsStart, ReportsRefusal;
      StatusIsSound(e.runtime);
      if desired.None? {
        return Answer(false, NO_PRESET, e.runtime);
      }
      if desired.value.enabled && status.sessionState.Enabled? {
        return Answer(true, "", e.runtime);
      }
      status := status.(sessionState := Enabling);
      var c := desired.value;
      var started := backend.StartSession(c.preset, c.presetOrigin, c.sinkSelector, e.first);
      if !started {
        GiveUp(e.first.error);
        desired := Some(c.(enabled := false));
        RefusedStartIsReported(e);
        return Answer(false, e.first.error, e.runtime);
      }
      desired := Some(c.(enabled := true));
      answer := Accept(e);
    }

    /** Stops the session and forgets that it is wanted; also the body of `shutdown`. */
    method StopWanted()
      requires !status.daemonState.Starting?
      modifies this`status, this`desired, backend
      ensures Valid() && Abs() == ConfigMachine.Disable(old(Abs())).0
      ensures IdentityOf(status) == IdentityOf(old(status))
    {
      if desired.Some? {
        desired := Some(desired.value.(enabled := false));
      }
      status := status.(sessionState := Disabling);
      backend.StopSession();
      status := status.(effective := NoEffect, sessionState := Disabled);
    }

    method Disable(e: Env) returns (answer: DaemonResponse)
      requires Valid()
      modifies this, backend
      ensures Valid() && (Abs(), answer.ok) == ConfigMachine.Disable(old(Abs()))
      ensures IdentityOf(status) == IdentityOf(old(status))
      ensures Sound(answer.status, e.runtime) && answer.sinks == []
      ensures answer.status.health.HealthOk? && answer.status.lastError == ""
    {
      StopWanted();
      SetHealth(HealthOk, "");
      StatusIsSound(e.runtime);
      answer := Answer(true, "", e.runtime);
    }

    method Shutdown(e: Env) returns (answer: DaemonResponse)
      requires Valid()
      modifies this, backend
      ensures Valid() && (Abs(), answer.ok) == ConfigMachine.Disable(old(Abs()))
      ensures Sound(answer.status, e.runtime) && answer.sinks == []
      ensures IdentityOf(status) == IdentityOf(old(status)).(state := Stopping)
    {
      status := status.(daemonState := Stopping);
      StopWanted();
      StatusIsSound(e.runtime);
      answer := Answer(true, "", e.runtime);
    }

    method SwitchSink(r: DaemonRequest, e: Env) returns (answer: DaemonResponse)
      requires Valid()
      modifies this, backend
      ensures Valid() && (Abs(), answer.ok) == ConfigMachine.SwitchSink(old(Abs()), r, e)
      ensures IdentityOf(status) == IdentityOf(old(status))
      ensures Sound(answer.status, e.runtime) && answer.sinks == []
      ensures old(desired).Some? && old(desired).value.enabled && r.sinkSelector != "" ==>
                if e.first.Starts? then ReportsStart(answer, e)
                else ReportsRefusal(answer, e) && Returned(old(desired), e)
    {
      hide StatusNow, Sound, ReportsStart, ReportsRefusal, Returned, Plays;
      StatusIsSound(e.runtime);
      if desired.None? {
        return Answer(false, NO_PRESET, e.runtime);
      }
      if r.sinkSelector == "" {
        return Answer(false, SWITCH_USAGE, e.runtime);
      }
      if desired.value.enabled {
        answer := MoveSession(r, e);
        return;
      }
      desired := Some(desired.value.(sinkSelector := r.sinkSelector));
      StatusIsSound(e.runtime);
      answer := Answer(true, "", e.runtime);
    }

    /** Starts the session again on another sink, or on the old one if that is refused. */
    method MoveSession(r: DaemonRequest, e: Env) returns (answer: DaemonResponse)
      requires Valid() && desired.Some? && desired.value.enabled && r.sinkSelector != ""
      modifies this, backend
      ensures Valid() && (Abs(), answer.ok) == ConfigMachine.SwitchSink(old(Abs()), r, e)
      ensures IdentityOf(status) == IdentityOf(old(status))
      ensures Sound(answer.status, e.runtime) && answer.sinks == []
      ensures if e.first.Starts? then ReportsStart(answer, e)
              else ReportsRefusal(answer, e) && Returned(old(desired), e)
    {
      hide StatusNow, Sound, ReportsStart, ReportsRefusal, Returned, Plays;
      var previousSink := desired.value.sinkSelector;
      desired := Some(desired.value.(sinkSelector := r.sinkSelector));
      status := status.(sessionState := Enabling);
      backend.StopSession();
      var c := desired.value;
      var started := backend.StartSession(c.preset, c.presetOrigin, c.sinkSelector, e.first);
      if !started {
        desired := Some(c.(sinkSelector := previousSink));
        answer := RollBack(e);
        return;
      }
      answer := Accept(e);
    }

    /** Remembers the setting and hands it to the router. */
    method RecordBypass(bypass: bool)
      requires Valid() && desired.Some? && desired.value.enabled
      modifies this`desired, backend`router
      ensures Valid() && desired == Some(old(desired).value.(bypass := bypass))
      ensures Abs() == old(Abs()).(desired := desired)
    {
      desired := Some(desired.value.(bypass := bypass));
      backend.SetBypass(bypass);
    }

    method RecordVolume(volume: Float)
      requires Valid() && desired.Some? && desired.value.enabled
      modifies this`desired, backend`router
      ensures Valid() && desired == Some(old(desired).value.(volume := volume))
      ensures Abs() == old(Abs()).(desired := desired)
    {
      desired := Some(desired.value.(volume := volume));
      backend.SetVolume(volume);
    }

    method Bypass(r: DaemonRequest, e: Env) returns (answer: DaemonResponse)
      requires Valid()
      modifies this, backend
      ensures Valid() && (Abs(), answer.ok) == ConfigMachine.Bypass(old(Abs()), r)
      ensures IdentityOf(status) == IdentityOf(old(status))
      ensures Sound(answer.status, e.runtime) && answer.sinks == []
      ensures answer.ok ==> ReportsStart(answer, e)
      ensures !answer.ok ==> status == old(status)
    {
      hide StatusNow, Sound, Valid, Agrees, Plays, ReportsStart;
      StatusIsSound(e.runtime);
      if desired.None? || !desired.value.enabled {
        return Answer(false, NO_SESSION, e.runtime);
      }
      var value := r.sinkSelector;
      var isOn := value == "on" || value == "true" || value == "1";
      var isOff := value == "off" || value == "false" || value == "0";
      if !isOn && !isOff {
        return Answer(false, BYPASS_USAGE, e.runtime);
      }
      RecordBypass(isOn);
      SetHealth(HealthOk, "");
      AcceptedStartIsReported(e);
      answer := Answer(true, "", e.runtime);
    }

    method Volume(e: Env) returns (answer: DaemonResponse)
      requires Valid()
      modifies this, backend
      ensures Valid() && (Abs(), answer.ok) == ConfigMachine.SetVolume(old(Abs()), e)
      ensures IdentityOf(status) == IdentityOf(old(status))
      ensures Sound(answer.status, e.runtime) && answer.sinks == []
      ensures status == old(status)
    {
      hide StatusNow, Sound, Valid, Agrees, Plays;
      StatusIsSound(e.runtime);
      if desired.None? || !desired.value.enabled {
        return Answer(false, NO_SESSION, e.runtime);
      }
      if e.number.NotANumber? {
        return Answer(false, VOLUME_USAGE, e.runtime);
      }
      if OutOfRange(e.number.value) {
        return Answer(false, VOLUME_RANGE, e.runtime);
      }
      RecordVolume(e.number.value);
      StatusIsSound(e.runtime);
      answer := Answer(true, "", e.runtime);
    }

    method ListSinks(e: Env) returns (answer: DaemonResponse)
      requires Valid()
      ensures answer.ok == e.sinks.Lists? && Sound(answer.status, e.runtime)
      ensures answer.sinks == if e.sinks.Lists? then e.sinks.names else []
    {
      StatusIsSound(e.runtime);
      if e.sinks.ListFails? {
        return Answer(false, e.sinks.error, e.runtime);
      }
      answer := Answer(true, "", e.runtime).(sinks := e.sinks.names);
    }

    /** The time before a request, in which the worker may fail. */
    method Elapse(e: Env)
      requires Valid()
      modifies backend`workerFailed
      ensures Valid() && Abs() == old(Abs()).(active := old(Abs()).active && !e.workerDies)
    {
      if e.workerDies {
        backend.FailWorker();
      }
    }

    /** One request. The worker may fail before it; whatever happens, the step is the one of `ConfigMachine`, controller
        and backend agree afterwards, and the answer's status is sound. */
    method HandleRequest(r: DaemonRequest, e: Env) returns (answer: DaemonResponse)
      requires Valid()
      modifies this, backend
      ensures Valid() && (Abs(), answer.ok) == Next(old(Abs()), r, e)
      ensures Sound(answer.status, e.runtime) && (answer.status.effective.sessionActive <==> Abs().active)
      ensures Attempts(old(Abs()), r, e) ==>
                if e.first.Starts? then ReportsStart(answer, e) else ReportsRefusal(answer, e)
      ensures Attempts(old(Abs()), r, e) && e.first.Starts? ==> desired.Some? && Plays(desired.value)
      ensures IdentityOf(status) == if e.environmentError == "" && r.command == "shutdown" then
                IdentityOf(old(status)).(state := Stopping)
              else IdentityOf(old(status))
      ensures Attempts(old(Abs()), r, e) && e.first.Refuses? && r.command != "enable" && WantsSession(old(Abs())) ==>
                Returned(old(desired), e)
      ensures answer.sinks == if e.environmentError == "" && r.command == "list-sinks" && e.sinks.Lists? then
                e.sinks.names
              else []
    {
      hide ConfigMachine.Apply, ConfigMachine.Enable, ConfigMachine.Disable, ConfigMachine.SwitchSink,
        ConfigMachine.Bypass, ConfigMachine.SetVolume, Sound, ReportsStart, ReportsRefusal, StatusNow, Plays, Returned;
      ghost var before := Abs();
      if Attempts(before, r, e) {
        StartsAreAnswered(before, r, e);
      }
      Elapse(e);
      StatusIsSound(e.runtime);
      if e.environmentError != "" {
        answer := Answer(false, e.environmentError, e.runtime);
      } else if r.command == "status" {
        answer := Answer(true, "", e.runtime);
      } else if r.command == "apply" {
        answer := Apply(r, e);
      } else if r.command == "enable" {
        answer := Enable(e);
      } else if r.command == "disable" {
        answer := Disable(e);
      } else if r.command == "switch-sink" {
        answer := SwitchSink(r, e);
      } else if r.command == "bypass" {
        answer := Bypass(r, e);
      } else if r.command == "volume" {
        answer := Volume(e);
      } else if r.command == "list-sinks" {
        answer := ListSinks(e);
      } else if r.command == "shutdown" {
        answer := Shutdown(e);
      } else {
        answer := Answer(false, "unknown daemon command", e.runtime);
      }
      ActiveIsReported(answer.status, e.runtime);
    }
  }

  /** What the client makes of an answer. */
  ghost predicate Received(answer: DaemonResponse, a: Accepted) {
    DecodeResponse(EncodeResponse(answer)) == if a.volume.Finite? then JsonTree.Ok(answer) else JsonTree.Err
  }

  lemma AnswerIsReceived(controller: Controller, answer: DaemonResponse, runtime: Runtime, a: Accepted)
    requires controller.Sound(answer.status, runtime) && Remembers(controller.Abs(), a)
    ensures Received(answer, a)
  {
    hide DecodeResponse, EncodeResponse, Remembers, FiniteVolumes;
    controller.VolumesOfStatus(answer.status, runtime, a);
    StartedDaemonRoundTrip(answer);
  }

  /** Any sequence of requests, with any outcomes of the environment, is a run of `ConfigMachine` that keeps
      controller and backend in agreement. An answer reaches its client exactly if the volume accepted last is finite,
      and cannot be decoded at all otherwise; it shows a session exactly if the machine has an active one. */
  method Serve(controller: Controller, calls: seq<Call>) returns (answers: seq<DaemonResponse>)
    requires controller.Valid() && controller.Abs() == Initial
    modifies controller, controller.backend
    ensures controller.Valid() && controller.Abs() == Run(calls)
    ensures |answers| == |calls|
    ensures forall i :: 0 <= i < |calls| ==>
              && answers[i].ok == LastOk(calls[..i + 1])
              && Received(answers[i], LastAccepted(calls[..i + 1]))
              && (answers[i].status.effective.sessionActive <==> Run(calls[..i + 1]).active)
  {
    hide Next, LastAccepted, Received, Remembers;
    answers := [];
    for i := 0 to |calls|
      invariant controller.Valid() && controller.Abs() == Run(calls[..i])
      invariant |answers| == i
      invariant forall k :: 0 <= k < i ==>
                  && answers[k].ok == LastOk(calls[..k + 1])
                  && Received(answers[k], LastAccepted(calls[..k + 1]))
                  && (answers[k].status.effective.sessionActive <==> Run(calls[..k + 1]).active)
    {
      assert calls[..i + 1][..i] == calls[..i];
      var answer := controller.HandleRequest(calls[i].request, calls[i].env);
      RememberedIsLastAccepted(calls[..i + 1]);
      AnswerIsReceived(controller, answer, calls[i].env.runtime, LastAccepted(calls[..i + 1]));
      answers := answers + [answer];
    }
    assert calls[..|calls|] == calls;
  }

  /** A refused `apply` after which the old session runs again and its status shows no trace of the error: a filter
      had failed when the old session settled and works when the answer is put together. */
  method HealthyAfterRefusal(load: Load) returns (answer: DaemonResponse)
    requires load.Loads?
    ensures !answer.ok && answer.error == "no such sink"
    ensures answer.status.effective.sessionActive && answer.status.health.HealthOk? && answer.status.lastError == ""
  {
    var backend := new Backend();
    var controller := new Controller(backend, "", 1, "");
    var e := Smooth(load);
    var first := controller.HandleRequest(DaemonRequest("apply", "a.json", ""), e);
    answer := controller.HandleRequest(
      DaemonRequest("apply", "a.json", "x"),
      e.(first := Refuses("no such sink"), settling := e.settling.(initError := "LV2 EQ instantiation failed")));
  }
}
