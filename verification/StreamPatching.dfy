/** Which streams are redirected to the virtual sink: callbacks of the PipeWire thread and tasks of the control thread
    interleave, each region under the state lock being one step (src/pipewire_router.cpp:1637-1770, :2180-2239 and
    :2254-2326). Streams are named by their serials, which are unique and never zero. */
module StreamPatching {
  import opened Basics
  import opened LoopGuard

  /** What the control thread is in the middle of. `rest` are the streams of a list it still has to visit. */
  datatype Control =
    | Resting
    | TaskTaken(serial: nat)
    | Patching(rest: seq<nat>)
    | Redirecting(serial: nat, rest: seq<nat>)
    | Unpatching(rest: seq<nat>)

  /** `redirected` are the streams whose target metadata points at the virtual sink, `inserted` and `redirects` log
      every entry into `patched` and every metadata redirect, `history` logs the removals the loop guard recorded,
      `used` are all serials ever seen. */
  datatype State = State(
    bound: map<nat, string>,
    patched: set<nat>,
    pending: set<nat>,
    recent: map<nat, int>,
    guards: map<string, Guard>,
    tasks: multiset<nat>,
    control: Control,
    shuttingDown: bool,
    clock: int,
    redirected: set<nat>,
    inserted: multiset<nat>,
    redirects: multiset<nat>,
    history: map<string, seq<Removal>>,
    used: set<nat>)

  const Start := State(map[], {}, {}, map[], map[], multiset{}, Resting, false, 0, {}, multiset{}, multiset{}, map[],
                       {})

  datatype Action =
    // PipeWire thread
    | NodeAdded(serial: nat, name: string)
    | NodeInfo(serial: nat, name: string, eligible: bool, now: int)
    | NodeRemoved(serial: nat, now: int)
    // control thread
    | TakeTask(serial: nat)
    | CheckTask
    | PatchStream(now: int, sinkReady: bool)
    | Redirect
    | FinishPatching
    | PatchExisting(list: seq<nat>)
    | BeginClear(list: seq<nat>)
    | Unpatch
    | EndClear
    | Shutdown

  ghost predicate Enabled(s: State, a: Action) {
    match a
    case NodeAdded(serial, _) => serial !in s.used && serial > 0
    case NodeInfo(serial, _, _, now) => serial in s.bound && s.clock <= now
    case NodeRemoved(serial, now) => serial in s.bound && s.clock <= now
    case TakeTask(serial) => s.control.Resting? && serial in s.tasks
    case CheckTask => s.control.TaskTaken?
    case PatchStream(now, _) => s.control.Patching? && s.control.rest != [] && s.clock <= now
    case Redirect => s.control.Redirecting?
    case FinishPatching => s.control.Patching? && s.control.rest == []
    case PatchExisting(list) => s.control.Resting? && forall x :: x in list ==> x in s.bound
    case BeginClear(list) => s.control.Resting? && Distinct(list) && forall x :: x in list <==> x in s.patched
    case Unpatch => s.control.Unpatching? && s.control.rest != []
    case EndClear => s.control.Unpatching? && s.control.rest == []
    case Shutdown => s.control.Resting?
  }

  function GuardOf(s: State, name: string): Guard {
    if name in s.guards then s.guards[name] else NewGuard
  }

  function HistoryOf(s: State, name: string): seq<Removal> {
    if name in s.history then s.history[name] else []
  }

  /** The tail of `on_node_info`: queue a patch task unless the guard suppresses it or one is not needed. */
  function Observe(s: State, serial: nat, name: string, eligible: bool, now: int): State {
    if !eligible || Suppresses(GuardOf(s, name), now) then s
    else if serial in s.patched || serial in s.pending then s
    else s.(pending := s.pending + {serial}, tasks := s.tasks + multiset{serial})
  }

  function Remove(s: State, serial: nat, now: int): State
    requires serial in s.bound
  {
    var name := s.bound[serial];
    var t := s.(clock := now, bound := s.bound - {serial}, patched := s.patched - {serial},
                pending := s.pending - {serial}, recent := s.recent - {serial});
    if serial in s.recent then
      var r := Removal(now, s.recent[serial]);
      t.(guards := s.guards[name := Record(GuardOf(s, name), r)],
         history := s.history[name := HistoryOf(s, name) + [r]])
    else t
  }

  ghost function Do(s: State, a: Action): State
    requires Enabled(s, a)
  {
    match a
    case NodeAdded(serial, name) => s.(bound := s.bound[serial := name], used := s.used + {serial})
    case NodeInfo(serial, name, eligible, now) =>
      if s.shuttingDown then s.(clock := now)
      else Observe(s.(clock := now, bound := s.bound[serial := name]), serial, name, eligible, now)
    case NodeRemoved(serial, now) => Remove(s, serial, now)
    case TakeTask(serial) => s.(tasks := s.tasks - multiset{serial}, control := TaskTaken(serial))
    case CheckTask =>
      var serial := s.control.serial;
      var t := s.(pending := s.pending - {serial});
      if s.shuttingDown || serial !in s.bound then t.(control := Resting) else t.(control := Patching([serial]))
    case PatchStream(now, sinkReady) =>
      var serial, rest := s.control.rest[0], s.control.rest[1..];
      if serial in s.patched || serial !in s.bound || !sinkReady then s.(clock := now, control := Patching(rest))
      else
        s.(clock := now, patched := s.patched + {serial}, recent := s.recent[serial := now],
           inserted := s.inserted + multiset{serial}, control := Redirecting(serial, rest))
    case Redirect =>
      var serial := s.control.serial;
      s.(redirected := s.redirected + {serial}, redirects := s.redirects + multiset{serial},
         control := Patching(s.control.rest))
    case FinishPatching => s.(control := Resting)
    case PatchExisting(list) => s.(control := Patching(list))
    case BeginClear(list) => s.(patched := {}, pending := {}, recent := map[], control := Unpatching(list))
    case Unpatch =>
      var serial := s.control.rest[0];
      s.(redirected := if serial in s.bound then s.redirected - {serial} else s.redirected,
         control := Unpatching(s.control.rest[1..]))
    case EndClear => s.(control := Resting)
    case Shutdown => s.(shuttingDown := true)
  }

  ghost predicate Executes(s: State, actions: seq<Action>)
    decreases actions
  {
    actions == [] || (Enabled(s, actions[0]) && Executes(Do(s, actions[0]), actions[1..]))
  }

  ghost function After(s: State, actions: seq<Action>): State
    requires Executes(s, actions)
    decreases actions
  {
    if actions == [] then s else After(Do(s, actions[0]), actions[1..])
  }

  ghost predicate Reachable(s: State) {
    exists actions :: Executes(Start, actions) && After(Start, actions) == s
  }

  // Invariants

  /** The stream was just entered into `patched` and its redirect has not been issued yet. */
  predicate InHand(s: State, x: nat) {
    s.control.Redirecting? && s.control.serial == x
  }

  ghost predicate KeysAgree(s: State) {
    s.recent.Keys == s.patched && s.patched <= s.bound.Keys <= s.used
  }

  ghost predicate PendingHasTask(s: State) {
    forall x :: x in s.pending ==> x in s.tasks || s.control == TaskTaken(x)
  }

  ghost predicate Bookkeeping(s: State) {
    KeysAgree(s) && PendingHasTask(s)
  }

  /** The redirected streams that still exist are the patched ones whose redirect was issued, or, while they are
      being released, the ones still to be visited. */
  ghost predicate MetadataAgrees(s: State) {
    && (forall x :: x in s.redirected || InHand(s, x) ==> x in s.used)
    && (s.control.Unpatching? ==>
          s.patched == {} && Distinct(s.control.rest) && forall x :: x in s.control.rest ==> x in s.used)
    && (forall x :: x in s.bound && InHand(s, x) ==> x in s.patched)
    && (forall x :: x in s.bound ==>
          (x in s.redirected <==>
             if s.control.Unpatching? then x in s.control.rest else x in s.patched && !InHand(s, x)))
  }

  ghost predicate RedirectsCount(s: State) {
    forall x :: s.inserted[x] == s.redirects[x] + if InHand(s, x) then 1 else 0
  }

  /** The guard of a name is what its recorded removals make of a new one. */
  ghost predicate GuardFits(s: State, name: string) {
    var h := HistoryOf(s, name);
    GuardOf(s, name) == Replay(h) && Monotone(h) && (h != [] ==> h[|h| - 1].at <= s.clock)
  }

  ghost predicate GuardsAgree(s: State) {
    0 <= s.clock && forall name :: GuardFits(s, name)
  }

  ghost predicate Inv(s: State) {
    Bookkeeping(s) && MetadataAgrees(s) && RedirectsCount(s) && GuardsAgree(s)
  }

  predicate FromCallback(a: Action) {
    a.NodeAdded? || a.NodeInfo? || a.NodeRemoved?
  }

  lemma CallbackKeepsBookkeeping(s: State, a: Action)
    requires Bookkeeping(s) && Enabled(s, a) && FromCallback(a)
    ensures Bookkeeping(Do(s, a))
  {
  }

  lemma ControlKeepsKeys(s: State, a: Action)
    requires KeysAgree(s) && Enabled(s, a) && !FromCallback(a)
    ensures KeysAgree(Do(s, a))
  {
  }

  lemma ControlKeepsPending(s: State, a: Action)
    requires PendingHasTask(s) && Enabled(s, a) && !FromCallback(a)
    ensures PendingHasTask(Do(s, a))
  {
  }

  lemma LogsKept(s: State, a: Action)
    requires Enabled(s, a) && !a.PatchStream? && !a.Redirect?
    ensures var t := Do(s, a);
            && t.inserted == s.inserted && t.redirects == s.redirects
            && (t.control.Redirecting? || s.control.Redirecting? ==> t.control == s.control)
  {
    hide GuardOf, HistoryOf, Suppresses, Record;
  }

  lemma PatchIsCounted(s: State, a: Action)
    requires RedirectsCount(s) && Enabled(s, a) && (a.PatchStream? || a.Redirect?)
    ensures RedirectsCount(Do(s, a))
  {
  }

  lemma StepKeepsCount(s: State, a: Action)
    requires RedirectsCount(s) && Enabled(s, a)
    ensures RedirectsCount(Do(s, a))
  {
    hide Do;
    if a.PatchStream? || a.Redirect? {
      PatchIsCounted(s, a);
    } else {
      LogsKept(s, a);
    }
  }

  lemma UnpatchKeepsMetadata(s: State)
    requires Bookkeeping(s) && MetadataAgrees(s) && Enabled(s, Unpatch)
    ensures MetadataAgrees(Do(s, Unpatch))
  {
    var list := s.control.rest;
    var rest := list[1..];
    assert list == [list[0]] + rest;
    forall i, j | 0 <= i < j < |rest| ensures rest[i] != rest[j] {
      assert list[i + 1] != list[j + 1];
    }
    forall x ensures x in list <==> x == list[0] || x in rest {
    }
  }

  lemma PatchKeepsMetadata(s: State, now: int, sinkReady: bool)
    requires MetadataAgrees(s) && KeysAgree(s) && Enabled(s, PatchStream(now, sinkReady))
    ensures MetadataAgrees(Do(s, PatchStream(now, sinkReady)))
  {
    var t := Do(s, PatchStream(now, sinkReady));
    assert t.bound == s.bound && t.redirected == s.redirected && t.used == s.used;
  }

  lemma RedirectKeepsMetadata(s: State, a: Action)
    requires MetadataAgrees(s) && (a.Redirect? || a.CheckTask?) && Enabled(s, a)
    ensures MetadataAgrees(Do(s, a))
  {
    var t := Do(s, a);
    assert t.bound == s.bound && t.patched == s.patched && t.used == s.used;
  }

  lemma AdditionKeepsMetadata(s: State, serial: nat, name: string)
    requires Bookkeeping(s) && MetadataAgrees(s) && Enabled(s, NodeAdded(serial, name))
    ensures MetadataAgrees(Do(s, NodeAdded(serial, name)))
  {
  }

  lemma InfoKeepsMetadata(s: State, a: Action)
    requires Bookkeeping(s) && MetadataAgrees(s) && a.NodeInfo? && Enabled(s, a)
    ensures MetadataAgrees(Do(s, a))
  {
    var t := Do(s, a);
    assert t.control == s.control && t.redirected == s.redirected && t.patched == s.patched && t.used == s.used;
    assert t.bound.Keys == s.bound.Keys;
  }

  lemma RemovalKeepsMetadata(s: State, serial: nat, now: int)
    requires Bookkeeping(s) && MetadataAgrees(s) && serial in s.bound
    ensures MetadataAgrees(Remove(s, serial, now))
  {
    var t := Remove(s, serial, now);
    assert t.control == s.control && t.redirected == s.redirected && t.used == s.used;
    assert t.bound.Keys == s.bound.Keys - {serial} && t.patched == s.patched - {serial};
  }

  lemma StepKeepsMetadata(s: State, a: Action)
    requires Bookkeeping(s) && MetadataAgrees(s) && Enabled(s, a)
    ensures MetadataAgrees(Do(s, a))
  {
    if a.Unpatch? {
      UnpatchKeepsMetadata(s);
    } else if a.PatchStream? {
      PatchKeepsMetadata(s, a.now, a.sinkReady);
    } else if a.Redirect? || a.CheckTask? {
      RedirectKeepsMetadata(s, a);
    } else if a.NodeAdded? {
      AdditionKeepsMetadata(s, a.serial, a.name);
    } else if a.NodeInfo? {
      InfoKeepsMetadata(s, a);
    } else if a.NodeRemoved? {
      RemovalKeepsMetadata(s, a.serial, a.now);
    }
  }

  lemma RecordKeepsGuard(s: State, serial: nat, now: int)
    requires serial in s.bound && serial in s.recent && 0 <= s.clock <= now && GuardFits(s, s.bound[serial])
    ensures GuardFits(Remove(s, serial, now), s.bound[serial])
  {
    var t, name := Remove(s, serial, now), s.bound[serial];
    var h, r := HistoryOf(s, name), Removal(now, s.recent[serial]);
    assert HistoryOf(t, name) == h + [r] && GuardOf(t, name) == Record(Replay(h), r);
    ReplayAppend(h, r);
    MonotoneAppend(h, r);
  }

  lemma MonotoneAppend(h: seq<Removal>, r: Removal)
    requires Monotone(h) && 0 <= r.at && (h != [] ==> h[|h| - 1].at <= r.at)
    ensures Monotone(h + [r])
  {
    var all := h + [r];
    forall i, j | 0 <= i <= j < |all| ensures all[i].at <= all[j].at {
      if i < |h| {
        assert h[i].at <= h[|h| - 1].at;
      }
    }
  }

  lemma UntouchedGuard(s: State, t: State, name: string)
    requires GuardFits(s, name) && s.clock <= t.clock
    requires GuardOf(t, name) == GuardOf(s, name) && HistoryOf(t, name) == HistoryOf(s, name)
    ensures GuardFits(t, name)
  {
  }

  lemma RemovalIsRemove(s: State, a: Action)
    requires a.NodeRemoved? && Enabled(s, a)
    ensures Do(s, a) == Remove(s, a.serial, a.now)
  {
  }

  lemma GuardsAfterRemoval(s: State, serial: nat, now: int, name: string)
    requires serial in s.bound && !(serial in s.recent && name == s.bound[serial])
    ensures var t := Remove(s, serial, now);
            GuardOf(t, name) == GuardOf(s, name) && HistoryOf(t, name) == HistoryOf(s, name)
  {
    hide Record;
  }

  /** Only the removal of a recorded stream touches a guard, and only the one of that stream's name. */
  lemma GuardsElsewhere(s: State, a: Action, name: string)
    requires Enabled(s, a)
    requires !(a.NodeRemoved? && a.serial in s.recent && name == s.bound[a.serial])
    ensures var t := Do(s, a);
            GuardOf(t, name) == GuardOf(s, name) && HistoryOf(t, name) == HistoryOf(s, name) && s.clock <= t.clock
  {
    hide Do, Remove, GuardOf, HistoryOf;
    ClockAdvances(s, a);
    if a.NodeRemoved? {
      GuardsAfterRemoval(s, a.serial, a.now, name);
      RemovalIsRemove(s, a);
    } else if FromCallback(a) {
      GuardsAfterCallback(s, a, name);
    } else {
      GuardsAfterControl(s, a, name);
    }
  }

  lemma GuardsAfterCallback(s: State, a: Action, name: string)
    requires Enabled(s, a) && (a.NodeAdded? || a.NodeInfo?)
    ensures GuardOf(Do(s, a), name) == GuardOf(s, name) && HistoryOf(Do(s, a), name) == HistoryOf(s, name)
  {
    hide Suppresses, Record, Remove;
  }

  lemma GuardsAfterControl(s: State, a: Action, name: string)
    requires Enabled(s, a) && !FromCallback(a)
    ensures GuardOf(Do(s, a), name) == GuardOf(s, name) && HistoryOf(Do(s, a), name) == HistoryOf(s, name)
  {
    hide Suppresses, Record, Remove, Observe;
  }

  lemma StepKeepsGuards(s: State, a: Action)
    requires GuardsAgree(s) && Enabled(s, a)
    ensures GuardsAgree(Do(s, a))
  {
    hide GuardFits, Do, GuardOf, HistoryOf, Remove;
    forall name ensures GuardFits(Do(s, a), name) {
      if a.NodeRemoved? && a.serial in s.recent && name == s.bound[a.serial] {
        RecordKeepsGuard(s, a.serial, a.now);
        RemovalIsRemove(s, a);
      } else {
        GuardsElsewhere(s, a, name);
        UntouchedGuard(s, Do(s, a), name);
      }
    }
    ClockAdvances(s, a);
  }

  lemma ClockAdvances(s: State, a: Action)
    requires Enabled(s, a)
    ensures s.clock <= Do(s, a).clock
  {
  }

  lemma StepKeepsInv(s: State, a: Action)
    requires Inv(s) && Enabled(s, a)
    ensures Inv(Do(s, a))
  {
    hide Do, Enabled, GuardsAgree, RedirectsCount, KeysAgree, PendingHasTask, MetadataAgrees;
    if FromCallback(a) {
      CallbackKeepsBookkeeping(s, a);
    } else {
      ControlKeepsKeys(s, a);
      ControlKeepsPending(s, a);
    }
    StepKeepsMetadata(s, a);
    StepKeepsCount(s, a);
    StepKeepsGuards(s, a);
  }

  lemma {:induction false} ExecutionKeepsInv(s: State, actions: seq<Action>)
    requires Inv(s) && Executes(s, actions)
    ensures Inv(After(s, actions))
    decreases actions
  {
    hide Inv, Do;
    if actions != [] {
      StepKeepsInv(s, actions[0]);
      ExecutionKeepsInv(Do(s, actions[0]), actions[1..]);
    }
  }

  lemma ReachableInv(s: State)
    requires Reachable(s)
    ensures Inv(s)
  {
    var actions :| Executes(Start, actions) && After(Start, actions) == s;
    assert Inv(Start);
    ExecutionKeepsInv(Start, actions);
  }

  // Results for every reachable state

  /** The patched set is the key set of the recent attempts and contains only streams that exist; every pending stream
      has a patch task queued or just taken. */
  lemma PatchBookkeeping(s: State)
    requires Reachable(s)
    ensures s.patched == s.recent.Keys && s.patched <= s.bound.Keys
    ensures forall x :: x in s.pending ==> x in s.tasks || s.control == TaskTaken(x)
  {
    ReachableInv(s);
  }

  /** Every entry into the patched set is followed by one redirect, and there are no other redirects: between two
      steps the counts differ by at most the one redirect the control thread is about to issue. */
  lemma OneRedirectPerPatch(s: State, x: nat)
    requires Reachable(s)
    ensures s.inserted[x] == s.redirects[x] + if s.control.Redirecting? && s.control.serial == x then 1 else 0
  {
    ReachableInv(s);
  }

  /** Whenever the control thread rests, the streams that exist and are redirected are exactly the patched ones. */
  lemma RedirectedIffPatched(s: State)
    requires Reachable(s) && s.control.Resting?
    ensures forall x :: x in s.bound ==> (x in s.redirected <==> x in s.patched)
  {
    ReachableInv(s);
  }

  /** When releasing the patched streams is finished, no stream that still exists is redirected and none is patched,
      whatever the PipeWire thread did meanwhile. */
  lemma ClearReleasesEveryStream(s: State)
    requires Reachable(s) && Enabled(s, EndClear)
    ensures s.patched == {} && forall x :: x in s.bound ==> x !in s.redirected
  {
    ReachableInv(s);
  }

  /** A stream that reports itself gets one patch task if it is eligible, not yet patched or pending, and its name did
      not complete a loop of three rapid removals less than five seconds ago; otherwise none. Nothing else changes. */
  lemma ObservedStreamIsQueued(s: State, serial: nat, name: string, eligible: bool, now: int)
    requires Reachable(s) && Enabled(s, NodeInfo(serial, name, eligible, now)) && !s.shuttingDown
    ensures var t := Do(s, NodeInfo(serial, name, eligible, now));
            var queued := eligible && serial !in s.patched && serial !in s.pending
                          && !RecentLoop(HistoryOf(s, name), now);
            && t.bound == s.bound[serial := name] && t.patched == s.patched
            && t.pending == s.pending + (if queued then {serial} else {})
            && t.tasks == s.tasks + (if queued then multiset{serial} else multiset{})
  {
    ReachableInv(s);
    assert GuardFits(s, name);
    SuppressionIffRecentLoop(HistoryOf(s, name), now);
    assert GuardOf(s.(clock := now, bound := s.bound[serial := name]), name) == GuardOf(s, name);
  }

  /** While the router is shutting down, what streams report changes nothing. */
  lemma NothingIsQueuedAtShutdown(s: State, serial: nat, name: string, eligible: bool, now: int)
    requires Enabled(s, NodeInfo(serial, name, eligible, now)) && s.shuttingDown
    ensures Do(s, NodeInfo(serial, name, eligible, now)) == s.(clock := now)
  {
  }

  /** Releasing begins by forgetting every patched and pending stream and when it was patched, so that those still there
      may be patched again as soon as they report themselves. */
  lemma ClearForgets(s: State, list: seq<nat>, serial: nat, name: string, now: int)
    requires Reachable(s) && Enabled(s, BeginClear(list))
    ensures var t := Do(s, BeginClear(list));
            && t.patched == {} && t.pending == {} && t.recent == map[] && t.control == Unpatching(list)
            && (forall x :: x in list <==> x in s.patched)
            && (Enabled(t, NodeInfo(serial, name, true, now)) && !s.shuttingDown
                && !RecentLoop(HistoryOf(s, name), now) ==>
                  serial in Do(t, NodeInfo(serial, name, true, now)).tasks)
  {
    ReachableInv(s);
    var t := Do(s, BeginClear(list));
    StepKeepsInv(s, BeginClear(list));
    if Enabled(t, NodeInfo(serial, name, true, now)) {
      assert GuardFits(t, name);
      SuppressionIffRecentLoop(HistoryOf(t, name), now);
      assert GuardOf(t.(clock := now, bound := t.bound[serial := name]), name) == GuardOf(t, name);
    }
  }

  // What a patching achieves

  /** The stream next in line is entered with the time of day and then redirected, once, and nothing else changes. */
  lemma NextStreamIsRedirected(s: State, now: int)
    requires Enabled(s, PatchStream(now, true))
    requires s.control.rest[0] in s.bound && s.control.rest[0] !in s.patched
    ensures var x, taken := s.control.rest[0], Do(s, PatchStream(now, true));
            && Enabled(taken, Redirect)
            && var t := Do(taken, Redirect);
               && t.patched == s.patched + {x} && t.redirected == s.redirected + {x}
               && t.redirects == s.redirects + multiset{x} && t.recent == s.recent[x := now]
               && t.control == Patching(s.control.rest[1..])
  {
  }

  /** While the virtual sink is not ready, and for a stream that is patched already or gone, nothing is entered or
      redirected. */
  lemma OthersAreSkipped(s: State, now: int, sinkReady: bool)
    requires Enabled(s, PatchStream(now, sinkReady))
    requires !sinkReady || s.control.rest[0] in s.patched || s.control.rest[0] !in s.bound
    ensures var t := Do(s, PatchStream(now, sinkReady));
            && t.patched == s.patched && t.recent == s.recent
            && t.redirected == s.redirected && t.redirects == s.redirects
            && t.control == Patching(s.control.rest[1..])
  {
  }

  /** The actions of both threads while the control thread works through its list and the virtual sink stays ready. */
  predicate KeepsPatching(a: Action) {
    FromCallback(a) || a.Redirect? || (a.PatchStream? && a.sinkReady)
  }

  predicate AllKeepPatching(actions: seq<Action>) {
    forall i :: 0 <= i < |actions| ==> KeepsPatching(actions[i])
  }

  /** Every stream of the list is still to be visited, patched, or gone. */
  ghost predicate OnTheWay(s: State, list: seq<nat>) {
    && (s.control.Patching? || s.control.Redirecting?)
    && forall x :: x in list ==> x in s.used && (x in s.bound ==> x in s.control.rest || x in s.patched)
  }

  lemma CallbackStaysOnTheWay(s: State, a: Action, list: seq<nat>)
    requires OnTheWay(s, list) && Enabled(s, a) && FromCallback(a)
    ensures OnTheWay(Do(s, a), list)
  {
    hide Suppresses, Record, GuardOf, HistoryOf;
  }

  lemma ControlStaysOnTheWay(s: State, a: Action, list: seq<nat>)
    requires OnTheWay(s, list) && Enabled(s, a) && (a.Redirect? || (a.PatchStream? && a.sinkReady))
    ensures OnTheWay(Do(s, a), list)
  {
    if a.PatchStream? {
      assert s.control.rest == [s.control.rest[0]] + s.control.rest[1..];
    }
  }

  lemma {:induction false} PatchingStaysOnTheWay(s: State, actions: seq<Action>, list: seq<nat>)
    requires Inv(s) && OnTheWay(s, list) && Executes(s, actions) && AllKeepPatching(actions)
    ensures Inv(After(s, actions)) && OnTheWay(After(s, actions), list)
    decreases actions
  {
    hide Inv, Do, OnTheWay, Enabled;
    if actions != [] {
      var a := actions[0];
      assert KeepsPatching(a);
      StepKeepsInv(s, a);
      if FromCallback(a) {
        CallbackStaysOnTheWay(s, a, list);
      } else {
        ControlStaysOnTheWay(s, a, list);
      }
      PatchingStaysOnTheWay(Do(s, a), actions[1..], list);
    }
  }

  /** When the list is worked through, every stream of it that still exists is patched and redirected. */
  lemma ListIsRedirected(s: State, actions: seq<Action>, list: seq<nat>)
    requires Inv(s) && OnTheWay(s, list) && Executes(s, actions) && AllKeepPatching(actions)
    requires Enabled(After(s, actions), FinishPatching)
    ensures var t := After(s, actions);
            forall x :: x in list && x in t.bound ==> x in t.patched && x in t.redirected
  {
    hide After, Executes;
    PatchingStaysOnTheWay(s, actions, list);
  }

  /** Patching existing streams redirects every stream of the list that still exists at the end, whatever the
      callbacks do meanwhile, if the virtual sink was ready. */
  lemma ExistingStreamsAreRedirected(s: State, list: seq<nat>, actions: seq<Action>)
    requires Reachable(s) && Enabled(s, PatchExisting(list))
    requires Executes(Do(s, PatchExisting(list)), actions) && AllKeepPatching(actions)
    requires Enabled(After(Do(s, PatchExisting(list)), actions), FinishPatching)
    ensures var t := After(Do(s, PatchExisting(list)), actions);
            forall x :: x in list && x in t.bound ==> x in t.patched && x in t.redirected
  {
    hide After, Executes, Reachable;
    ReachableInv(s);
    StepKeepsInv(s, PatchExisting(list));
    ListIsRedirected(Do(s, PatchExisting(list)), actions, list);
  }

  /** A patch task that was taken redirects its stream likewise, unless the router is shutting down. */
  lemma TaskIsRedirected(s: State, actions: seq<Action>)
    requires Reachable(s) && Enabled(s, CheckTask) && !s.shuttingDown && s.control.serial in s.bound
    requires Executes(Do(s, CheckTask), actions) && AllKeepPatching(actions)
    requires Enabled(After(Do(s, CheckTask), actions), FinishPatching)
    ensures var x, t := s.control.serial, After(Do(s, CheckTask), actions);
            x in t.bound ==> x in t.patched && x in t.redirected
  {
    hide After, Executes, Reachable;
    ReachableInv(s);
    StepKeepsInv(s, CheckTask);
    ListIsRedirected(Do(s, CheckTask), actions, [s.control.serial]);
  }

  /** A task for a stream that is gone, or taken while the router is shutting down, only stops being pending. */
  lemma TaskIsDropped(s: State)
    requires Enabled(s, CheckTask) && (s.shuttingDown || s.control.serial !in s.bound)
    ensures Do(s, CheckTask) == s.(pending := s.pending - {s.control.serial}, control := Resting)
  {
  }

  /** The removal of a stream is recorded for its name, with the time it was patched, exactly if it was patched. */
  lemma RemovalIsRecorded(s: State, serial: nat, now: int)
    requires Reachable(s) && Enabled(s, NodeRemoved(serial, now))
    ensures var t, name := Do(s, NodeRemoved(serial, now)), s.bound[serial];
            && serial !in t.bound && serial !in t.patched && serial !in t.pending
            && (serial in s.recent <==> serial in s.patched)
            && HistoryOf(t, name) == HistoryOf(s, name)
                                     + if serial in s.recent then [Removal(now, s.recent[serial])] else []
  {
    hide Reachable, GuardsAgree, MetadataAgrees, RedirectsCount, Record;
    ReachableInv(s);
  }
}
