/** The daemon seen from its clients: the remembered configuration, whether a router is running for it, and whether the
    daemon believes so. One request is one step; what the controller's methods do is proved to be exactly these steps,
    and what is promised over whole runs is proved here. */
module ConfigMachine {
  import opened Basics
  import opened DaemonProtocol
  import opened SessionBackend

  datatype Config = Config(
    presetPath: string,
    presetOrigin: string,
    preset: Preset,
    sinkSelector: string,
    enabled: bool,
    bypass: bool,
    volume: Float)

  datatype Load = Loads(origin: string, preset: Preset) | LoadFails(error: string)

  datatype Number = NotANumber | Number(value: Float)

  datatype Sinks = Lists(names: seq<string>) | ListFails(error: string)

  /** Everything outside the controller that one request depends on: how loading and starting go, what the router
      reports right after a start (`settling`) and when the answer is put together (`runtime`), and whether the worker
      fails before the request or between these two looks. */
  datatype Env = Env(
    workerDies: bool,
    workerDiesLater: bool,
    environmentError: string,
    load: Load,
    first: Start,
    second: Start,
    settling: Runtime,
    runtime: Runtime,
    number: Number,
    sinks: Sinks)

  /** `live`: a router exists. `active`: and its worker has not failed. `settled`: the session was last seen enabled. */
  datatype Machine = Machine(desired: Option<Config>, live: bool, active: bool, settled: bool)

  const Initial := Machine(None, false, false, false)

  predicate WantsSession(m: Machine) {
    m.desired.Some? && m.desired.value.enabled
  }

  /** The machine after a start for configuration `c`, if it succeeds. The worker may fail before the session is
      looked at, or between this look and the answer. */
  function Running(c: Config, start: Start, workerDiesLater: bool): Machine
    requires start.Starts?
  {
    Machine(Some(c), true, !start.workerDies && !workerDiesLater, !start.workerDies)
  }

  function Stopped(desired: Option<Config>): Machine {
    Machine(desired, false, false, false)
  }

  /** Falls back to a configuration that was running before. */
  function FallBack(c: Config, e: Env): Machine {
    if e.second.Starts? then Running(c, e.second, e.workerDiesLater) else Stopped(Some(c))
  }

  function Candidate(m: Machine, r: DaemonRequest, load: Load): Config
    requires load.Loads?
  {
    Config(r.presetPath, load.origin, load.preset, r.sinkSelector, true,
           m.desired.Some? && m.desired.value.bypass,
           if m.desired.Some? then m.desired.value.volume else UNITY)
  }

  function Apply(m: Machine, r: DaemonRequest, e: Env): (Machine, bool) {
    if r.presetPath == "" || e.load.LoadFails? then (m, false)
    else if e.first.Starts? then (Running(Candidate(m, r, e.load), e.first, e.workerDiesLater), true)
    else if WantsSession(m) then (FallBack(m.desired.value, e), false)
    else (Stopped(m.desired), false)
  }

  function Enable(m: Machine, e: Env): (Machine, bool) {
    if m.desired.None? then (m, false)
    else if m.desired.value.enabled && m.settled then (m, true)
    else if e.first.Starts? then (Running(m.desired.value.(enabled := true), e.first, e.workerDiesLater), true)
    else (Stopped(Some(m.desired.value.(enabled := false))), false)
  }

  function Disable(m: Machine): (Machine, bool) {
    (Stopped(if m.desired.Some? then Some(m.desired.value.(enabled := false)) else None), true)
  }

  function SwitchSink(m: Machine, r: DaemonRequest, e: Env): (Machine, bool) {
    if m.desired.None? || r.sinkSelector == "" then (m, false)
    else
      var c := m.desired.value.(sinkSelector := r.sinkSelector);
      if !c.enabled then (m.(desired := Some(c)), true)
      else if e.first.Starts? then (Running(c, e.first, e.workerDiesLater), true)
      else (FallBack(m.desired.value, e), false)
  }

  function BypassArgument(s: string): Option<bool> {
    if s == "on" || s == "true" || s == "1" then Some(true)
    else if s == "off" || s == "false" || s == "0" then Some(false)
    else None
  }

  function Bypass(m: Machine, r: DaemonRequest): (Machine, bool) {
    if !WantsSession(m) || BypassArgument(r.sinkSelector).None? then (m, false)
    else (m.(desired := Some(m.desired.value.(bypass := BypassArgument(r.sinkSelector).value))), true)
  }

  /** `value < 0 || value > 1.5` in floating point: every comparison with NaN is false. */
  predicate OutOfRange(f: Float) {
    match f
    case Finite(v) => v < 0.0 || v > 1.5
    case PosInf => true
    case NegInf => true
    case NaN => false
  }

  function SetVolume(m: Machine, e: Env): (Machine, bool) {
    if !WantsSession(m) || e.number.NotANumber? || OutOfRange(e.number.value) then (m, false)
    else (m.(desired := Some(m.desired.value.(volume := e.number.value))), true)
  }

  function Handle(m: Machine, r: DaemonRequest, e: Env): (Machine, bool) {
    if e.environmentError != "" then (m, false)
    else if r.command == "status" then (m, true)
    else if r.command == "apply" then Apply(m, r, e)
    else if r.command == "enable" then Enable(m, e)
    else if r.command == "disable" then Disable(m)
    else if r.command == "switch-sink" then SwitchSink(m, r, e)
    else if r.command == "bypass" then Bypass(m, r)
    else if r.command == "volume" then SetVolume(m, e)
    else if r.command == "list-sinks" then (m, e.sinks.Lists?)
    else if r.command == "shutdown" then Disable(m)
    else (m, false)
  }

  /** One request, which the worker may fail before. */
  function Next(m: Machine, r: DaemonRequest, e: Env): (Machine, bool) {
    Handle(m.(active := m.active && !e.workerDies), r, e)
  }

  /** Whether the request reaches its start of a session. */
  predicate Attempts(m: Machine, r: DaemonRequest, e: Env) {
    && e.environmentError == ""
    && (|| (r.command == "apply" && r.presetPath != "" && e.load.Loads?)
        || (r.command == "enable" && m.desired.Some? && !(m.desired.value.enabled && m.settled))
        || (r.command == "switch-sink" && WantsSession(m) && r.sinkSelector != ""))
  }

  datatype Call = Call(request: DaemonRequest, env: Env)

  function Run(calls: seq<Call>): Machine
    decreases |calls|
  {
    if calls == [] then Initial
    else Next(Run(calls[..|calls| - 1]), calls[|calls| - 1].request, calls[|calls| - 1].env).0
  }

  /** Whether the last call of a run is answered ok. */
  predicate LastOk(calls: seq<Call>)
    requires calls != []
  {
    Next(Run(calls[..|calls| - 1]), calls[|calls| - 1].request, calls[|calls| - 1].env).1
  }

  ghost predicate Inv(m: Machine) {
    (m.settled || m.active ==> m.live) && (m.live ==> WantsSession(m))
  }

  lemma CommandsKeepInv(m: Machine, r: DaemonRequest, e: Env)
    requires Inv(m)
    ensures Inv(Apply(m, r, e).0) && Inv(Enable(m, e).0) && Inv(Disable(m).0) && Inv(SwitchSink(m, r, e).0)
    ensures Inv(Bypass(m, r).0) && Inv(SetVolume(m, e).0)
  {
    hide BypassArgument, OutOfRange;
  }

  lemma NextKeepsInv(m: Machine, r: DaemonRequest, e: Env)
    requires Inv(m)
    ensures Inv(Next(m, r, e).0)
  {
    hide Apply, Enable, Disable, SwitchSink, Bypass, SetVolume;
    CommandsKeepInv(m.(active := m.active && !e.workerDies), r, e);
  }

  lemma {:induction false} RunKeepsInv(calls: seq<Call>)
    ensures Inv(Run(calls))
    decreases |calls|
  {
    if calls != [] {
      RunKeepsInv(calls[..|calls| - 1]);
      NextKeepsInv(Run(calls[..|calls| - 1]), calls[|calls| - 1].request, calls[|calls| - 1].env);
    }
  }

  /** A request that is refused changes nothing that is remembered, except that a refused `enable` clears `enabled`. */
  lemma RefusedRequestsForget(m: Machine, r: DaemonRequest, e: Env)
    requires !Next(m, r, e).1
    ensures Next(m, r, e).0.desired ==
              if m.desired.Some? && r.command == "enable" && e.environmentError == "" then
                Some(m.desired.value.(enabled := false))
              else m.desired
  {
  }

  /** A request that gets as far as starting a session is answered as this start goes; an accepted one leaves a session
      that is active unless its worker fails. */
  lemma StartsAreAnswered(m: Machine, r: DaemonRequest, e: Env)
    requires Attempts(m, r, e)
    ensures var (n, ok) := Next(m, r, e);
            && (ok <==> e.first.Starts?)
            && (ok ==> n.live && WantsSession(n) && (n.active <==> !e.first.workerDies && !e.workerDiesLater))
  {
  }

  /** What an accepted start runs: the preset of `apply` or the old one, on the sink named by `apply` or `switch-sink`
      or the old one, with the settings kept from before. */
  lemma AcceptedStartRuns(m: Machine, r: DaemonRequest, e: Env)
    requires Attempts(m, r, e) && e.first.Starts?
    ensures var n := Next(m, r, e).0;
            && n.desired.Some?
            && var c := n.desired.value;
            && (c.sinkSelector == if r.command == "enable" then m.desired.value.sinkSelector else r.sinkSelector)
            && (r.command == "apply" ==> Loads(c.presetOrigin, c.preset) == e.load && c.presetPath == r.presetPath)
            && (r.command != "apply" ==>
                  m.desired.value
                  == c.(sinkSelector := m.desired.value.sinkSelector, enabled := m.desired.value.enabled))
            && c.volume == (if m.desired.Some? then m.desired.value.volume else UNITY)
            && (c.bypass <==> m.desired.Some? && m.desired.value.bypass)
  {
  }

  /** A refused `apply` or `switch-sink` returns to the session that was wanted before: it runs again exactly if its
      second start succeeds, and is active exactly if its worker survives too. */
  lemma RefusedStartReturns(m: Machine, r: DaemonRequest, e: Env)
    requires WantsSession(m) && Attempts(m, r, e) && r.command != "enable" && !Next(m, r, e).1
    ensures var n := Next(m, r, e).0;
            && n.desired == m.desired
            && (n.live <==> e.second.Starts?)
            && (n.active <==> e.second.Starts? && !e.second.workerDies && !e.workerDiesLater)
            && (n.settled <==> e.second.Starts? && !e.second.workerDies)
  {
  }

  /** Without a session to return to, and after a refused `enable`, nothing runs. */
  lemma RefusedStartLeavesNothing(m: Machine, r: DaemonRequest, e: Env)
    requires (WantsSession(m) ==> r.command == "enable") && Attempts(m, r, e) && !Next(m, r, e).1
    ensures var n := Next(m, r, e).0; !n.live && !n.active && !n.settled && !WantsSession(n)
  {
  }

  /** `disable` and `shutdown` always succeed in an allowed environment: nothing runs or is wanted any more, and the
      rest of the configuration is kept for the next `enable`. */
  lemma StoppingStops(m: Machine, r: DaemonRequest, e: Env)
    requires e.environmentError == "" && (r.command == "disable" || r.command == "shutdown")
    ensures var (n, ok) := Next(m, r, e);
            && ok && !n.live && !n.active && !n.settled && !WantsSession(n)
            && (n.desired.Some? <==> m.desired.Some?)
            && (m.desired.Some? ==> n.desired.value.(enabled := m.desired.value.enabled) == m.desired.value)
  {
  }

  /** No other request touches the session: it goes on running, or not running, as its worker has it. */
  lemma OthersLeaveTheSession(m: Machine, r: DaemonRequest, e: Env)
    requires !Attempts(m, r, e)
    requires e.environmentError == "" ==> r.command != "disable" && r.command != "shutdown"
    ensures var n := Next(m, r, e).0;
            && n.live == m.live && n.settled == m.settled && n.active == (m.active && !e.workerDies)
            && (WantsSession(n) <==> WantsSession(m))
  {
  }

  /** Requests that only ask, requests that are not known and requests in a forbidden environment change nothing that
      is remembered. */
  lemma AskingChangesNothing(m: Machine, r: DaemonRequest, e: Env)
    requires e.environmentError != ""
             || r.command !in ["apply", "enable", "disable", "switch-sink", "bypass", "volume", "shutdown"]
    ensures var (n, ok) := Next(m, r, e);
            && n == m.(active := m.active && !e.workerDies)
            && (ok <==> e.environmentError == ""
                        && (r.command == "status" || (r.command == "list-sinks" && e.sinks.Lists?)))
  {
  }

  /** Of the requests that may start a session, those that do not get that far are refused, but for an `enable` of a
      session that was seen enabled and a new sink for a session that is not wanted. */
  lemma WithoutStart(m: Machine, r: DaemonRequest, e: Env)
    requires !Attempts(m, r, e) && e.environmentError == "" && r.command in ["apply", "enable", "switch-sink"]
    ensures var (n, ok) := Next(m, r, e);
            && (ok <==>
                  && m.desired.Some?
                  && (r.command == "enable"
                      || (r.command == "switch-sink" && !WantsSession(m) && r.sinkSelector != "")))
            && (!ok || r.command == "enable" ==> n.desired == m.desired)
  {
  }

  /** While no session is wanted, `switch-sink` only records the sink, for a preset that was applied before. */
  lemma SinkOfNoSession(m: Machine, r: DaemonRequest, e: Env)
    requires r.command == "switch-sink" && e.environmentError == "" && !WantsSession(m)
    ensures var (n, ok) := Next(m, r, e);
            && (ok <==> m.desired.Some? && r.sinkSelector != "")
            && n.desired == if ok then Some(m.desired.value.(sinkSelector := r.sinkSelector)) else m.desired
  {
  }

  /** Six arguments switch bypass, while a session is wanted: three on, three off. */
  lemma AcceptedBypass(m: Machine, r: DaemonRequest, e: Env)
    requires r.command == "bypass" && e.environmentError == ""
    ensures var (n, ok) := Next(m, r, e);
            && (ok <==> WantsSession(m) && r.sinkSelector in ["on", "true", "1", "off", "false", "0"])
            && (ok ==> (n.desired.value.bypass <==> r.sinkSelector in ["on", "true", "1"]))
  {
  }

  ghost predicate KeepsSettings(m: Machine, n: Machine)
    requires m.desired.Some?
  {
    && n.desired.Some?
    && n.desired.value.bypass == m.desired.value.bypass
    && n.desired.value.volume == m.desired.value.volume
  }

  lemma StartsKeepSettings(m: Machine, r: DaemonRequest, e: Env)
    requires m.desired.Some?
    ensures KeepsSettings(m, Apply(m, r, e).0) && KeepsSettings(m, SwitchSink(m, r, e).0)
    ensures KeepsSettings(m, Enable(m, e).0) && KeepsSettings(m, Disable(m).0)
  {
  }

  lemma OneSettingChanges(m: Machine, r: DaemonRequest, e: Env)
    requires m.desired.Some?
    ensures var (n, ok) := Bypass(m, r);
            n.desired.Some? && n.desired.value.volume == m.desired.value.volume && (ok || KeepsSettings(m, n))
    ensures var (n, ok) := SetVolume(m, e);
            n.desired.Some? && n.desired.value.bypass == m.desired.value.bypass && (ok || KeepsSettings(m, n))
  {
    hide BypassArgument, OutOfRange;
  }

  /** Only a successful `bypass` changes the bypass setting and only a successful `volume` the volume: both survive
      apply, enable, disable, switch-sink, shutdown and every failure. */
  lemma SettingsSurvive(m: Machine, r: DaemonRequest, e: Env)
    requires m.desired.Some?
    ensures Next(m, r, e).0.desired.Some?
    ensures Next(m, r, e).0.desired.value.bypass != m.desired.value.bypass ==> Next(m, r, e).1 && r.command == "bypass"
    ensures Next(m, r, e).0.desired.value.volume != m.desired.value.volume ==> Next(m, r, e).1 && r.command == "volume"
  {
    hide Apply, Enable, Disable, SwitchSink, Bypass, SetVolume;
    StartsKeepSettings(m.(active := m.active && !e.workerDies), r, e);
    OneSettingChanges(m.(active := m.active && !e.workerDies), r, e);
  }

  /** When the start of a new configuration and the return to the old one both fail, the old configuration is still
      wanted but nothing runs, and the next `enable` really starts it. */
  lemma EnableRetriesAfterDoubleFailure(m: Machine, r: DaemonRequest, e: Env, again: Env)
    requires Inv(m) && WantsSession(m) && e.environmentError == again.environmentError == ""
    requires || (r.command == "apply" && r.presetPath != "" && e.load.Loads?)
             || (r.command == "switch-sink" && r.sinkSelector != "")
    requires e.first.Refuses? && e.second.Refuses?
    ensures var failed, retried := Next(m, r, e).0, Next(Next(m, r, e).0, DaemonRequest("enable", "", ""), again);
            && failed.desired == m.desired && !failed.live
            && retried.1 == retried.0.live == again.first.Starts?
            && (again.first.Starts? ==> retried.0.desired == m.desired)
  {
  }

  /** An ok answer to `enable` means that a router exists. */
  lemma EnabledMeansLive(calls: seq<Call>)
    requires calls != [] && calls[|calls| - 1].request.command == "enable"
    ensures LastOk(calls) ==> Run(calls).live && WantsSession(Run(calls))
  {
    RunKeepsInv(calls);
    RunKeepsInv(calls[..|calls| - 1]);
  }

  /** What an ok answer to `enable` says of the worker: the session is active exactly when it really was started and
      the worker survived, or when it was seen enabled before and the worker, which is not asked, still runs. */
  lemma EnabledMeansActive(m: Machine, r: DaemonRequest, e: Env)
    requires Inv(m) && r.command == "enable" && Next(m, r, e).1
    ensures Next(m, r, e).0.active <==>
              if Attempts(m, r, e) then !e.first.workerDies && !e.workerDiesLater else m.active && !e.workerDies
  {
  }

  predicate OnlyAsks(calls: seq<Call>) {
    forall c :: c in calls ==>
      c.env.environmentError == "" && (c.request.command == "status" || c.request.command == "enable")
  }

  function RunFrom(m: Machine, calls: seq<Call>): Machine
    decreases |calls|
  {
    if calls == [] then m
    else Next(RunFrom(m, calls[..|calls| - 1]), calls[|calls| - 1].request, calls[|calls| - 1].env).0
  }

  /** A session that was seen enabled is never repaired by `enable`: once its worker has failed, any number of status
      and enable requests is answered ok and leaves it inactive. */
  lemma {:induction false} EnableNeverRevives(m: Machine, calls: seq<Call>, last: Call)
    requires m.live && m.settled && !m.active && WantsSession(m) && OnlyAsks(calls) && OnlyAsks([last])
    ensures RunFrom(m, calls) == m
    ensures Next(RunFrom(m, calls), last.request, last.env) == (m, true)
    decreases |calls|
  {
    assert last in [last];
    if calls != [] {
      assert calls[|calls| - 1] in calls;
      EnableNeverRevives(m, calls[..|calls| - 1], calls[|calls| - 1]);
    }
  }

  /** A volume is accepted exactly when a session is wanted and the argument is a number from 0 to 1.5 or
      not-a-number. */
  lemma AcceptedVolumes(m: Machine, r: DaemonRequest, e: Env)
    requires r.command == "volume" && e.environmentError == ""
    ensures Next(m, r, e).1 <==>
              && WantsSession(m) && e.number.Number?
              && (e.number.value.NaN? || (e.number.value.Finite? && 0.0 <= e.number.value.v <= 1.5))
    ensures Next(m, r, e).1 ==> Next(m, r, e).0.desired == Some(m.desired.value.(volume := e.number.value))
  {
  }

  // The remembered configuration as a function of the answers alone

  /** What was accepted last for each part: the argument of the last successful `volume` and `bypass`, the sink named
      by the last successful `apply` or `switch-sink`, path and preset of the last successful `apply`. */
  datatype Accepted = Accepted(volume: Float, bypass: bool, sink: string, preset: Option<(string, Load)>)

  function Accept(a: Accepted, c: Call): Accepted {
    var r := c.request;
    if r.command == "apply" then a.(sink := r.sinkSelector, preset := Some((r.presetPath, c.env.load)))
    else if r.command == "switch-sink" then a.(sink := r.sinkSelector)
    else if r.command == "bypass" && BypassArgument(r.sinkSelector).Some? then
      a.(bypass := BypassArgument(r.sinkSelector).value)
    else if r.command == "volume" && c.env.number.Number? then a.(volume := c.env.number.value)
    else a
  }

  function LastAccepted(calls: seq<Call>): Accepted
    decreases |calls|
  {
    if calls == [] then Accepted(UNITY, false, "", None)
    else
      var before := LastAccepted(calls[..|calls| - 1]);
      if LastOk(calls) then Accept(before, calls[|calls| - 1]) else before
  }

  ghost predicate Remembers(m: Machine, a: Accepted) {
    if m.desired.None? then a == Accepted(UNITY, false, "", None)
    else
      var c := m.desired.value;
      && a.volume == c.volume && a.bypass == c.bypass && a.sink == c.sinkSelector
      && a.preset == Some((c.presetPath, Loads(c.presetOrigin, c.preset)))
  }

  lemma ApplyRemembers(m: Machine, a: Accepted, r: DaemonRequest, e: Env)
    requires Remembers(m, a)
    ensures var (n, ok) := Apply(m, r, e);
            Remembers(n, if ok then a.(sink := r.sinkSelector, preset := Some((r.presetPath, e.load))) else a)
  {
  }

  lemma SwitchRemembers(m: Machine, a: Accepted, r: DaemonRequest, e: Env)
    requires Remembers(m, a)
    ensures var (n, ok) := SwitchSink(m, r, e); Remembers(n, if ok then a.(sink := r.sinkSelector) else a)
  {
  }

  lemma EnableRemembers(m: Machine, a: Accepted, e: Env)
    requires Remembers(m, a)
    ensures Remembers(Enable(m, e).0, a) && Remembers(Disable(m).0, a)
  {
  }

  lemma SettingsRemember(m: Machine, a: Accepted, r: DaemonRequest, e: Env)
    requires Remembers(m, a)
    ensures Bypass(m, r).1 ==> BypassArgument(r.sinkSelector).Some?
    ensures SetVolume(m, e).1 ==> e.number.Number?
    ensures Remembers(Bypass(m, r).0, if Bypass(m, r).1 then a.(bypass := BypassArgument(r.sinkSelector).value) else a)
    ensures Remembers(SetVolume(m, e).0, if SetVolume(m, e).1 then a.(volume := e.number.value) else a)
  {
  }

  lemma WorkerIsForgotten(m: Machine, n: Machine, a: Accepted)
    requires Remembers(m, a) && n.desired == m.desired
    ensures Remembers(n, a)
  {
  }

  lemma HandleRemembers(m: Machine, a: Accepted, c: Call)
    requires Remembers(m, a)
    ensures var (n, ok) := Handle(m, c.request, c.env);
            Remembers(n, if ok then Accept(a, c) else a)
  {
    hide Apply, SwitchSink, Enable, Disable, Bypass, SetVolume, Remembers, BypassArgument;
    ApplyRemembers(m, a, c.request, c.env);
    SwitchRemembers(m, a, c.request, c.env);
    EnableRemembers(m, a, c.env);
    SettingsRemember(m, a, c.request, c.env);
  }

  lemma NextRemembers(m: Machine, a: Accepted, c: Call)
    requires Remembers(m, a)
    ensures var (n, ok) := Next(m, c.request, c.env);
            Remembers(n, if ok then Accept(a, c) else a)
  {
    hide Handle, Remembers, Accept;
    var now := m.(active := m.active && !c.env.workerDies);
    assert Remembers(now, a) by { WorkerIsForgotten(m, now, a); }
    HandleRemembers(now, a, c);
  }

  /** In every run the remembered configuration is put together from the last successful command for each part, whatever
      was refused, rolled back, disabled or enabled in between; and there is one exactly if some `apply` succeeded. */
  lemma {:induction false} RememberedIsLastAccepted(calls: seq<Call>)
    ensures Remembers(Run(calls), LastAccepted(calls))
    decreases |calls|
  {
    hide Next, Accept, Remembers;
    if calls != [] {
      var before := calls[..|calls| - 1];
      RememberedIsLastAccepted(before);
      NextRemembers(Run(before), LastAccepted(before), calls[|calls| - 1]);
    } else {
      NothingRemembered();
    }
  }

  lemma NothingRemembered()
    ensures Remembers(Initial, Accepted(UNITY, false, "", None))
  {
  }

  /** The volume accepted last stays that until another `volume` request. */
  lemma {:induction false} VolumeLasts(calls: seq<Call>, more: seq<Call>)
    requires forall c :: c in more ==> c.request.command != "volume"
    ensures LastAccepted(calls + more).volume == LastAccepted(calls).volume
    decreases |more|
  {
    hide Next;
    if more == [] {
      assert calls + more == calls;
    } else {
      var before, last := more[..|more| - 1], more[|more| - 1];
      VolumeLasts(calls, before);
      assert (calls + more)[..|calls + more| - 1] == calls + before && last in more;
    }
  }

  // Runs in which this goes wrong

  /** Everything works. */
  function Smooth(load: Load): Env {
    Env(false, false, "", load, Starts(false), Starts(false), Runtime("", 1, [], ""), Runtime("", 1, [], ""),
        NotANumber, Lists([]))
  }

  function Applied(load: Load): Call {
    Call(DaemonRequest("apply", "a.json", ""), Smooth(load))
  }

  lemma AppliedRuns(load: Load)
    requires load.Loads?
    ensures Run([Applied(load)]) == Machine(Some(Config("a.json", load.origin, load.preset, "", true, false, UNITY)),
                                            true, true, true)
    ensures LastOk([Applied(load)])
  {
    assert [Applied(load)][..0] == [];
  }

  /** The worker fails after a successful `apply`: the next `enable` is answered ok, and no session is active. */
  lemma EnabledButInactive(load: Load)
    requires load.Loads?
    ensures var calls := [Applied(load), Call(DaemonRequest("enable", "", ""), Smooth(load).(workerDies := true))];
            LastOk(calls) && Run(calls).live && !Run(calls).active
  {
    AppliedRuns(load);
    var calls := [Applied(load), Call(DaemonRequest("enable", "", ""), Smooth(load).(workerDies := true))];
    assert calls[..1] == [Applied(load)];
  }

  /** Not-a-number is accepted as a volume and remembered. */
  lemma NotANumberIsRemembered(load: Load)
    requires load.Loads?
    ensures var calls := [Applied(load),
                          Call(DaemonRequest("volume", "", "nan"), Smooth(load).(number := Number(NaN)))];
            LastOk(calls) && LastAccepted(calls).volume.NaN?
  {
    AppliedRuns(load);
    var calls := [Applied(load), Call(DaemonRequest("volume", "", "nan"), Smooth(load).(number := Number(NaN)))];
    assert calls[..1] == [Applied(load)];
  }
}
