/** The session behind the daemon: one router at most, a worker thread that may fail on its own
    (src/daemon_backend.cpp:21-104). Starting a router is the environment's business; the caller says how it went. */
module SessionBackend {
  import opened Basics
  import opened DaemonProtocol
  import JsonTree

  /** A parsed preset, which the session only hands on. */
  type Preset = string

  datatype LiveRouter = LiveRouter(preset: Preset, sinkSelector: string, bypass: bool, volume: Float)

  /** What a running router reports about itself besides its settings. */
  datatype Runtime = Runtime(sinkName: string, sinkSerial: JsonTree.Word64, activePlugins: seq<string>,
                             initError: string)

  /** How an attempt to start a session goes; the worker of a started one may fail before anybody looks. */
  datatype Start = Starts(workerDies: bool) | Refuses(error: string)

  datatype Snapshot = Snapshot(effective: EffectiveState, initError: string)

  class Backend {
    var router: Option<LiveRouter>
    var presetOrigin: string
    var workerFailed: bool

    constructor ()
      ensures router == None && presetOrigin == ""
    {
      router, presetOrigin, workerFailed := None, "", false;
    }

    /** Tears down any session first; a refused start leaves none. */
    method StartSession(preset: Preset, origin: string, sinkSelector: string, start: Start) returns (ok: bool)
      modifies this
      ensures ok == start.Starts?
      ensures ok ==> router == Some(LiveRouter(preset, sinkSelector, false, UNITY)) && presetOrigin == origin
      ensures ok ==> workerFailed == start.workerDies
      ensures !ok ==> router == None && presetOrigin == ""
    {
      StopSession();
      if start.Refuses? {
        return false;
      }
      presetOrigin := origin;
      router := Some(LiveRouter(preset, sinkSelector, false, UNITY));
      workerFailed := false;
      if start.workerDies {
        FailWorker();
      }
      ok := true;
    }

    method StopSession()
      modifies this
      ensures router == None && presetOrigin == "" && workerFailed == old(workerFailed)
    {
      router, presetOrigin := None, "";
    }

    /** The polling loop of the worker gives up. */
    method FailWorker()
      modifies this`workerFailed
      ensures workerFailed
    {
      workerFailed := true;
    }

    method SetBypass(bypass: bool)
      modifies this`router
      ensures router == if old(router).Some? then Some(old(router).value.(bypass := bypass)) else None
    {
      if router.Some? {
        router := Some(router.value.(bypass := bypass));
      }
    }

    method SetVolume(volume: Float)
      modifies this`router
      ensures router == if old(router).Some? then Some(old(router).value.(volume := volume)) else None
    {
      if router.Some? {
        router := Some(router.value.(volume := volume));
      }
    }

    function TakeSnapshot(runtime: Runtime): Snapshot
      reads this
    {
      if router.None? || workerFailed then Snapshot(NoEffect, "")
      else
        Snapshot(EffectiveState(true, presetOrigin, runtime.sinkName, runtime.sinkSerial, runtime.activePlugins,
                                router.value.bypass, router.value.volume), runtime.initError)
    }
  }
}
