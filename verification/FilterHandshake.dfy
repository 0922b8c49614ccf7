/** The initialisation handshake between the real-time thread and the control worker, written the same way in the
    equalizer, limiter and convolver nodes (src/pipewire_router.cpp:246-358, :531-642 and :822-960), as a state
    machine whose steps are the atomic accesses of the two threads. */
module FilterHandshake {
  import opened Basics

  datatype InitState = Uninitialized | InitPending | Ready | Failed

  datatype Params = Params(rate: nat, frames: nat)

  /** Where the real-time thread is inside `on_process`. */
  datatype RealTime =
    | Idle
    | StoringPending(p: Params)
    | Recording(p: Params)
    | Scheduling(p: Params)
    | Resetting
    | Processing(p: Params)

  /** Where the worker is inside `initialize_on_worker`. */
  datatype Worker =
    | Waiting
    | Creating(p: Params)
    | Allocating(p: Params)
    | Publishing(p: Params)
    | Failing(p: Params)

  /** `current` is the pair of fields the real-time thread recorded last, `host` what the plugin instance was
      created for, `scratch` the length of the scratch buffers, `tasks` the queued initialisations. */
  datatype State = State(
    init: InitState,
    current: Params,
    rt: RealTime,
    worker: Worker,
    tasks: seq<Params>,
    host: Option<Params>,
    scratch: nat)

  const MIN_SCRATCH: nat := 8192

  const Start := State(Uninitialized, Params(0, 0), Idle, Waiting, [], None, 0)

  /** One atomic step of either thread. */
  datatype Action =
    | Cycle(p: Params)
    | RealTimeStep
    | TakeTask
    | Create(succeeds: bool, leftover: Option<Params>)
    | Allocate
    | Publish
    | Fail

  predicate Enabled(s: State, a: Action) {
    match a
    case Cycle(_) => s.rt.Idle?
    case RealTimeStep => !s.rt.Idle?
    case TakeTask => s.worker.Waiting? && s.tasks != []
    case Create(_, _) => s.worker.Creating?
    case Allocate => s.worker.Allocating?
    case Publish => s.worker.Publishing?
    case Fail => s.worker.Failing?
  }

  /** The branch `on_process` takes on the state it loads; it alone writes `current`. */
  function Enter(s: State, p: Params): RealTime {
    if p.frames == 0 || p.rate == 0 then Idle
    else match s.init
      case Uninitialized => StoringPending(p)
      case InitPending => Idle
      case Failed => if p != s.current then Resetting else Idle
      case Ready => if p != s.current then Resetting else Processing(p)
  }

  function Do(s: State, a: Action): State
    requires Enabled(s, a)
  {
    match a
    case Cycle(p) => s.(rt := Enter(s, p))
    case RealTimeStep => (
      match s.rt
      case StoringPending(p) => s.(init := InitPending, rt := Recording(p))
      case Recording(p) => s.(current := p, rt := Scheduling(p))
      case Scheduling(p) => s.(tasks := s.tasks + [p], rt := Idle)
      case Resetting => s.(init := Uninitialized, rt := Idle)
      case Processing(_) => s.(rt := Idle))
    case TakeTask => s.(worker := Creating(s.tasks[0]), tasks := s.tasks[1..])
    case Create(succeeds, leftover) =>
      if succeeds then s.(host := Some(s.worker.p), worker := Allocating(s.worker.p))
      else s.(host := leftover, worker := Failing(s.worker.p))
    case Allocate =>
      s.(scratch := if s.worker.p.frames > MIN_SCRATCH then s.worker.p.frames else MIN_SCRATCH,
         worker := Publishing(s.worker.p))
    case Publish => s.(init := Ready, worker := Waiting)
    case Fail => s.(init := Failed, worker := Waiting)
  }

  /** A cycle without frames or without a rate changes nothing, and none is processed for such parameters. */
  lemma EmptyCycleIsSkipped(s: State, p: Params)
    requires Enabled(s, Cycle(p)) && (p.frames == 0 || p.rate == 0)
    ensures Do(s, Cycle(p)) == s
  {
  }

  /** Initialisations queued or running. */
  function Outstanding(s: State): nat {
    |s.tasks| + if s.worker.Waiting? then 0 else 1
  }

  /** An execution: every action is enabled where it is taken. */
  ghost predicate Executes(s: State, actions: seq<Action>)
    decreases actions
  {
    actions == [] || (Enabled(s, actions[0]) && Executes(Do(s, actions[0]), actions[1..]))
  }

  function After(s: State, actions: seq<Action>): State
    requires Executes(s, actions)
    decreases actions
  {
    if actions == [] then s else After(Do(s, actions[0]), actions[1..])
  }

  ghost predicate Reachable(s: State) {
    exists actions :: Executes(Start, actions) && After(Start, actions) == s
  }

  ghost predicate HandingOver(s: State) {
    s.rt.Recording? || s.rt.Scheduling?
  }

  ghost predicate Inv(s: State) {
    && (s.rt.StoringPending? ==> s.init.Uninitialized?)
    && (HandingOver(s) ==> s.init.InitPending?)
    && (s.rt.Scheduling? ==> s.rt.p == s.current)
    && (s.rt.Resetting? ==> s.init.Ready? || s.init.Failed?)
    && (s.rt.Processing? ==> s.init.Ready? && s.rt.p == s.current)
    && Outstanding(s) == (if s.init.InitPending? && !HandingOver(s) then 1 else 0)
    && (forall p :: p in s.tasks ==> p == s.current)
    && (!s.worker.Waiting? ==> s.worker.p == s.current)
    && (s.worker.Allocating? || s.worker.Publishing? || s.init.Ready? ==> s.host == Some(s.current))
    && (s.worker.Publishing? || s.init.Ready? ==> s.current.frames <= s.scratch && MIN_SCRATCH <= s.scratch)
  }

  lemma StepKeepsInv(s: State, a: Action)
    requires Inv(s) && Enabled(s, a)
    ensures Inv(Do(s, a))
  {
    if a.TakeTask? {
      assert s.tasks[0] in s.tasks;
    }
  }

  lemma {:induction false} ExecutionKeepsInv(s: State, actions: seq<Action>)
    requires Inv(s) && Executes(s, actions)
    ensures Inv(After(s, actions))
    decreases actions
  {
    if actions != [] {
      StepKeepsInv(s, actions[0]);
      ExecutionKeepsInv(Do(s, actions[0]), actions[1..]);
    }
  }

  lemma ReachableInv(s: State)
    requires Reachable(s)
    ensures Inv(s)
  {
    var actions :| Executes(Start, actions) && After(Start, actions) == s;
    ExecutionKeepsInv(Start, actions);
  }

  /** In every interleaving there is never more than one outstanding initialisation. */
  lemma AtMostOneTask(s: State)
    requires Reachable(s)
    ensures Outstanding(s) <= 1
  {
    ReachableInv(s);
  }

  /** Host and scratch buffers change only while the state is InitPending, and never while the real-time thread is
      processing. */
  lemma WorkerChangesOnlyWhilePending(s: State, a: Action)
    requires Reachable(s) && Enabled(s, a)
    requires Do(s, a).host != s.host || Do(s, a).scratch != s.scratch
    ensures s.init.InitPending? && !s.rt.Processing?
  {
    ReachableInv(s);
  }

  /** Whenever the real-time thread is in its processing branch, the host was created for exactly the rate and block
      size of this cycle, the scratch buffers are long enough, and the worker is idle with nothing queued. */
  lemma ProcessingIsSafe(s: State)
    requires Reachable(s) && s.rt.Processing?
    ensures s.host == Some(s.rt.p) && s.rt.p.frames <= s.scratch && 8192 <= s.scratch
    ensures Outstanding(s) == 0
  {
    ReachableInv(s);
  }

  // Progress

  /** Runs the real-time thread to the end of the callback it is in. */
  function FinishRealTime(s: State): (t: State)
    ensures t.rt.Idle?
    decreases match s.rt case Idle => 0 case StoringPending(_) => 3 case Recording(_) => 2 case _ => 1
  {
    if s.rt.Idle? then s else FinishRealTime(Do(s, RealTimeStep))
  }

  /** Lets the worker finish whatever is queued; creations succeed or fail. */
  function FinishWorker(s: State, succeeds: bool): (t: State)
    ensures t.worker.Waiting? && t.tasks == [] && t.rt == s.rt
    decreases |s.tasks|, match s.worker case Waiting => 0 case Creating(_) => 3 case Allocating(_) => 2 case _ => 1
  {
    match s.worker
    case Waiting => if s.tasks == [] then s else FinishWorker(Do(s, TakeTask), succeeds)
    case Creating(_) => FinishWorker(Do(s, Create(succeeds, None)), succeeds)
    case Allocating(_) => FinishWorker(Do(s, Allocate), succeeds)
    case Publishing(_) => FinishWorker(Do(s, Publish), succeeds)
    case Failing(_) => FinishWorker(Do(s, Fail), succeeds)
  }

  /** Both threads finish what they are in the middle of. */
  function Settled(s: State, succeeds: bool): (t: State)
    ensures t.rt.Idle?
  {
    FinishWorker(FinishRealTime(s), succeeds)
  }

  /** One audio cycle with parameters p, after which the worker gets to run. */
  function Round(s: State, p: Params, succeeds: bool): (t: State)
    requires s.rt.Idle?
    ensures t.rt.Idle?
  {
    Settled(Do(s, Cycle(p)), succeeds)
  }

  /** Rounds with the same parameters; creations in round i succeed or fail as `outcomes[i]` says. */
  function Rounds(s: State, p: Params, outcomes: seq<bool>): (t: State)
    requires s.rt.Idle?
    ensures t.rt.Idle?
    decreases |outcomes|
  {
    if outcomes == [] then s else Rounds(Round(s, p, outcomes[0]), p, outcomes[1..])
  }

  ghost predicate Quiet(s: State) {
    Inv(s) && s.rt.Idle? && s.worker.Waiting? && s.tasks == []
  }

  lemma {:induction false} FinishRealTimeKeepsInv(s: State)
    requires Inv(s)
    ensures Inv(FinishRealTime(s))
    decreases match s.rt case Idle => 0 case StoringPending(_) => 3 case Recording(_) => 2 case _ => 1
  {
    hide Inv;
    if !s.rt.Idle? {
      StepKeepsInv(s, RealTimeStep);
      FinishRealTimeKeepsInv(Do(s, RealTimeStep));
    }
  }

  lemma {:induction false} FinishWorkerKeepsInv(s: State, succeeds: bool)
    requires Inv(s)
    ensures Inv(FinishWorker(s, succeeds))
    decreases |s.tasks|, match s.worker case Waiting => 0 case Creating(_) => 3 case Allocating(_) => 2 case _ => 1
  {
    hide Inv;
    var a := match s.worker
      case Waiting => TakeTask
      case Creating(_) => Create(succeeds, None)
      case Allocating(_) => Allocate
      case Publishing(_) => Publish
      case Failing(_) => Fail;
    if !s.worker.Waiting? || s.tasks != [] {
      StepKeepsInv(s, a);
      FinishWorkerKeepsInv(Do(s, a), succeeds);
    }
  }

  /** From every reachable state the two threads come to rest. */
  lemma ReachableSettles(s: State, succeeds: bool)
    requires Reachable(s)
    ensures Quiet(Settled(s, succeeds))
  {
    ReachableInv(s);
    FinishRealTimeKeepsInv(s);
    FinishWorkerKeepsInv(FinishRealTime(s), succeeds);
  }

  lemma RoundStaysQuiet(s: State, p: Params, succeeds: bool)
    requires Quiet(s)
    ensures Quiet(Round(s, p, succeeds))
  {
    StepKeepsInv(s, Cycle(p));
    FinishRealTimeKeepsInv(Do(s, Cycle(p)));
    FinishWorkerKeepsInv(FinishRealTime(Do(s, Cycle(p))), succeeds);
  }

  lemma FromUninitialized(s: State, p: Params, succeeds: bool)
    requires Quiet(s) && s.init.Uninitialized? && p.rate > 0 && p.frames > 0
    ensures var t := Round(s, p, succeeds);
            Quiet(t) && t.current == p && t.init == if succeeds then Ready else Failed
  {
    RoundStaysQuiet(s, p, succeeds);
    RealTimeHandsOver(s, p);
    WorkerServes(s.(init := InitPending, current := p, tasks := [p]), p, succeeds);
  }

  lemma RealTimeHandsOver(s: State, p: Params)
    requires s.rt.Idle? && s.init.Uninitialized? && s.tasks == [] && p.rate > 0 && p.frames > 0
    ensures FinishRealTime(Do(s, Cycle(p))) == s.(init := InitPending, current := p, tasks := [p])
  {
    var a := s.(rt := StoringPending(p));
    var b := s.(init := InitPending, rt := Recording(p));
    var c := b.(current := p, rt := Scheduling(p));
    var d := c.(tasks := [p], rt := Idle);
    assert FinishRealTime(c) == FinishRealTime(d) == d;
    assert FinishRealTime(a) == FinishRealTime(b) == FinishRealTime(c);
  }

  lemma WorkerServes(s: State, p: Params, succeeds: bool)
    requires s.worker.Waiting? && s.tasks == [p]
    ensures var t := FinishWorker(s, succeeds);
            t.current == s.current && t.init == if succeeds then Ready else Failed
  {
    var a := s.(tasks := [], worker := Creating(p));
    var b := Do(a, Create(succeeds, None));
    assert Do(s, TakeTask) == a && FinishWorker(s, succeeds) == FinishWorker(a, succeeds) == FinishWorker(b, succeeds);
    if succeeds {
      var c := Do(b, Allocate);
      var d := Do(c, Publish);
      assert FinishWorker(b, true) == FinishWorker(c, true);
      assert FinishWorker(c, true) == FinishWorker(d, true) == d;
    } else {
      var d := Do(b, Fail);
      assert FinishWorker(b, false) == FinishWorker(d, false) == d;
    }
  }

  lemma FromOtherParameters(s: State, p: Params, succeeds: bool)
    requires Quiet(s) && (s.init.Ready? || s.init.Failed?) && s.current != p && p.rate > 0 && p.frames > 0
    ensures Quiet(Round(s, p, succeeds)) && Round(s, p, succeeds) == s.(init := Uninitialized)
  {
    RoundStaysQuiet(s, p, succeeds);
    var a := Do(s, Cycle(p));
    assert FinishRealTime(a) == Do(a, RealTimeStep);
  }

  /** Once an instance is ready, or has failed, for the parameters of the stream, it stays as it is whatever creations
      would do: a failed one is never tried again. */
  lemma {:induction false} StaysAsItIs(s: State, p: Params, outcomes: seq<bool>)
    requires Quiet(s) && (s.init.Ready? || s.init.Failed?) && s.current == p && p.rate > 0 && p.frames > 0
    ensures Rounds(s, p, outcomes) == s
    decreases |outcomes|
  {
    if outcomes != [] {
      var a := Do(s, Cycle(p));
      assert FinishRealTime(a) == s;
      StaysAsItIs(s, p, outcomes[1..]);
    }
  }

  /** The outcome that counts: whether the instance is ready for p, or the one creation for p that the rounds make
      succeeds. */
  predicate CreationSucceeds(s: State, p: Params, outcomes: seq<bool>)
    requires |outcomes| >= 2
  {
    if s.init.Uninitialized? then outcomes[0]
    else if s.current != p then outcomes[1]
    else s.init.Ready?
  }

  /** With the stream asking for the same parameters from now on, the third cycle and every later one is processed if
      the instance is ready for them or its one creation succeeds, and none is otherwise. */
  lemma ProcessedFromThirdCycle(s: State, p: Params, outcomes: seq<bool>)
    requires Quiet(s) && p.rate > 0 && p.frames > 0 && |outcomes| >= 2
    ensures Enter(Rounds(s, p, outcomes), p) == if CreationSucceeds(s, p, outcomes) then Processing(p) else Idle
  {
    var first := Round(s, p, outcomes[0]);
    assert Rounds(s, p, outcomes) == Rounds(first, p, outcomes[1..]);
    if s.init.Uninitialized? {
      FromUninitialized(s, p, outcomes[0]);
      StaysAsItIs(first, p, outcomes[1..]);
    } else if s.current != p {
      FromOtherParameters(s, p, outcomes[0]);
      var second := Round(first, p, outcomes[1]);
      assert Rounds(first, p, outcomes[1..]) == Rounds(second, p, outcomes[1..][1..]);
      FromUninitialized(first, p, outcomes[1]);
      StaysAsItIs(second, p, outcomes[2..]);
    } else {
      StaysAsItIs(s, p, outcomes);
    }
  }

  /** The same from every reachable state, once both threads have finished what they are in the middle of. */
  lemma EveryStateProgresses(s: State, finish: bool, p: Params, outcomes: seq<bool>)
    requires Reachable(s) && p.rate > 0 && p.frames > 0 && |outcomes| >= 2
    ensures var rest := Settled(s, finish);
            Enter(Rounds(rest, p, outcomes), p) == if CreationSucceeds(rest, p, outcomes) then Processing(p) else Idle
  {
    ReachableSettles(s, finish);
    ProcessedFromThirdCycle(Settled(s, finish), p, outcomes);
  }

  ghost predicate Leads(s: State, actions: seq<Action>, t: State) {
    Executes(s, actions) && After(s, actions) == t
  }

  lemma NoAction(s: State)
    ensures Leads(s, [], s)
  {
  }

  lemma FirstAction(s: State, a: Action, rest: seq<Action>, t: State)
    requires Enabled(s, a) && Leads(Do(s, a), rest, t)
    ensures Leads(s, [a] + rest, t)
  {
    hide Do;
    assert ([a] + rest)[1..] == rest;
  }

  /** A run after which both threads rest and the instance has failed for the parameters of the stream, whatever they
      are: from there on, by `StaysAsItIs`, nothing is processed any more. */
  lemma FailureIsReachable(p: Params)
    requires p.rate > 0 && p.frames > 0
    ensures var actions := [Cycle(p), RealTimeStep, RealTimeStep, RealTimeStep, TakeTask, Create(false, None), Fail];
            var failed := Start.(init := Failed, current := p);
            Leads(Start, actions, failed) && Quiet(failed)
  {
    hide Leads;
    var pending := Start.(init := InitPending, current := p);
    var failed := pending.(init := Failed);
    var a6 := [Fail];
    var a5 := [Create(false, None)] + a6;
    var a4 := [TakeTask] + a5;
    var a3 := [RealTimeStep] + a4;
    var a2 := [RealTimeStep] + a3;
    var a1 := [RealTimeStep] + a2;
    NoAction(failed);
    assert a6 == [Fail] + [] && [p][1..] == [] && [] + [p] == [p];
    FirstAction(pending.(worker := Failing(p)), Fail, [], failed);
    FirstAction(pending.(worker := Creating(p)), Create(false, None), a6, failed);
    FirstAction(pending.(tasks := [p]), TakeTask, a5, failed);
    FirstAction(pending.(rt := Scheduling(p)), RealTimeStep, a4, failed);
    FirstAction(Start.(init := InitPending, rt := Recording(p)), RealTimeStep, a3, failed);
    FirstAction(Start.(rt := StoringPending(p)), RealTimeStep, a2, failed);
    FirstAction(Start, Cycle(p), a1, failed);
    assert [Cycle(p)] + a1 == [Cycle(p), RealTimeStep, RealTimeStep, RealTimeStep, TakeTask, Create(false, None), Fail];
  }
}
