/** The router's delayed tasks: a multimap from due time to action, drained by the control thread
    (src/pipewire_router.cpp:1358-1412). Times are nanoseconds of the steady clock. */
module TaskQueue {
  import opened Basics

  const NS_PER_MS: nat := 1_000_000

  /** A queued task. `order` numbers the tasks as they are scheduled and stands for the action. */
  datatype Entry = Entry(due: int, order: nat)

  datatype Ran = Ran(entry: Entry, at: int)

  datatype Queue = Queue(tasks: seq<Entry>, issued: nat, ran: seq<Ran>)

  const Empty := Queue([], 0, [])

  /** Insertion into the multimap: behind every entry with the same key. */
  function Insert(q: seq<Entry>, e: Entry): (r: seq<Entry>)
    ensures multiset(r) == multiset(q) + multiset{e}
  {
    if q == [] then [e]
    else if e.due < q[0].due then [e] + q
    else
      assert q == [q[0]] + q[1..];
      [q[0]] + Insert(q[1..], e)
  }

  /** What happens under the queue's lock: a task is scheduled, or the control thread looks for a due one. */
  datatype Event = Scheduled(now: int, delay: nat) | Polled(now: int)

  predicate HasDue(q: Queue, now: int) {
    q.tasks != [] && q.tasks[0].due <= now
  }

  function Step(q: Queue, e: Event): Queue {
    match e
    case Scheduled(now, delay) =>
      Queue(Insert(q.tasks, Entry(now + delay * NS_PER_MS, q.issued)), q.issued + 1, q.ran)
    case Polled(now) =>
      if HasDue(q, now) then Queue(q.tasks[1..], q.issued, q.ran + [Ran(q.tasks[0], now)]) else q
  }

  function Replay(q: Queue, events: seq<Event>): Queue
    decreases |events|
  {
    if events == [] then q else Step(Replay(q, events[..|events| - 1]), events[|events| - 1])
  }

  ghost predicate Before(a: Entry, b: Entry) {
    a.due < b.due || (a.due == b.due && a.order < b.order)
  }

  ghost predicate Sorted(q: seq<Entry>) {
    forall i, j :: 0 <= i < j < |q| ==> Before(q[i], q[j]) && q[i].order != q[j].order
  }

  /** `a` was scheduled before `b` and is not due later, so it has to run first. */
  ghost predicate Precedes(a: Entry, b: Entry) {
    a.order < b.order && a.due <= b.due
  }

  ghost predicate Inv(q: Queue) {
    && Sorted(q.tasks)
    && (forall e :: e in q.tasks ==> e.order < q.issued)
    && (forall r :: r in q.ran ==> r.entry.order < q.issued && r.entry.due <= r.at)
    && (forall e, r :: e in q.tasks && r in q.ran ==> e.order != r.entry.order && !Precedes(e, r.entry))
    && (forall i, j :: 0 <= i < j < |q.ran| ==>
          q.ran[i].entry.order != q.ran[j].entry.order && !Precedes(q.ran[j].entry, q.ran[i].entry))
  }

  lemma InsertMembers(q: seq<Entry>, e: Entry, x: Entry)
    ensures x in Insert(q, e) <==> x == e || x in q
  {
    assert x in Insert(q, e) <==> multiset(Insert(q, e))[x] > 0;
    assert x in q <==> multiset(q)[x] > 0;
  }

  /** `head` may stand in front of every entry of `q`. */
  ghost predicate Leads(head: Entry, q: seq<Entry>) {
    forall x :: x in q ==> Before(head, x) && head.order != x.order
  }

  lemma LeaderKeepsSorted(head: Entry, q: seq<Entry>)
    requires Sorted(q) && Leads(head, q)
    ensures Sorted([head] + q)
  {
  }

  lemma SortedParts(q: seq<Entry>)
    requires Sorted(q) && q != []
    ensures Sorted(q[1..]) && Leads(q[0], q[1..])
  {
    forall x | x in q[1..] ensures Before(q[0], x) && q[0].order != x.order {
      var k :| 0 <= k < |q[1..]| && q[1..][k] == x;
      assert x == q[k + 1];
    }
  }

  lemma LeadsFurther(e: Entry, head: Entry, q: seq<Entry>)
    requires e.due < head.due && e.order > head.order && Leads(head, q)
    requires forall x :: x in q ==> x.order < e.order
    ensures Leads(e, [head] + q)
  {
  }

  lemma {:induction false} InsertKeepsSorted(q: seq<Entry>, e: Entry)
    requires Sorted(q) && forall x :: x in q ==> x.order < e.order
    ensures Sorted(Insert(q, e))
    ensures forall x :: x in Insert(q, e) <==> x == e || x in q
  {
    forall x ensures x in Insert(q, e) <==> x == e || x in q {
      InsertMembers(q, e, x);
    }
    if q != [] {
      var head, rest := q[0], q[1..];
      assert q == [head] + rest;
      SortedParts(q);
      if e.due < head.due {
        LeadsFurther(e, head, rest);
        LeaderKeepsSorted(e, q);
      } else {
        InsertKeepsSorted(rest, e);
        LeaderKeepsSorted(head, Insert(rest, e));
      }
    }
  }

  lemma ScheduleKeepsInv(q: Queue, now: int, delay: nat)
    requires Inv(q)
    ensures Inv(Step(q, Scheduled(now, delay)))
  {
    hide Insert;
    InsertKeepsSorted(q.tasks, Entry(now + delay * NS_PER_MS, q.issued));
  }

  lemma HeadIsLeast(q: Queue, x: Entry)
    requires Sorted(q.tasks) && q.tasks != [] && x in q.tasks[1..]
    ensures x in q.tasks && Before(q.tasks[0], x) && x.order != q.tasks[0].order
  {
    var k :| 0 <= k < |q.tasks[1..]| && q.tasks[1..][k] == x;
    assert x == q.tasks[k + 1];
  }

  lemma PollKeepsInv(q: Queue, now: int)
    requires Inv(q)
    ensures Inv(Step(q, Polled(now)))
  {
    if HasDue(q, now) {
      var head, next := q.tasks[0], Step(q, Polled(now));
      assert head in q.tasks;
      forall x | x in next.tasks
        ensures x in q.tasks && x.order != head.order && !Precedes(x, head)
      {
        HeadIsLeast(q, x);
      }
      forall r | r in next.ran ensures r in q.ran || r == Ran(head, now) {
      }
      forall i | 0 <= i < |q.ran|
        ensures q.ran[i].entry.order != head.order && !Precedes(head, q.ran[i].entry)
      {
        assert q.ran[i] in q.ran;
      }
    }
  }

  lemma StepKeepsInv(q: Queue, e: Event)
    requires Inv(q)
    ensures Inv(Step(q, e))
  {
    match e
    case Scheduled(now, delay) => ScheduleKeepsInv(q, now, delay);
    case Polled(now) => PollKeepsInv(q, now);
  }

  lemma {:induction false} ReplayKeepsInv(q: Queue, events: seq<Event>)
    requires Inv(q)
    ensures Inv(Replay(q, events))
    decreases |events|
  {
    if events != [] {
      ReplayKeepsInv(q, events[..|events| - 1]);
      StepKeepsInv(Replay(q, events[..|events| - 1]), events[|events| - 1]);
    }
  }

  /** In every run each task runs at most once and never before it is due. */
  lemma RunsOnceAndNotEarly(events: seq<Event>, i: nat, j: nat)
    requires i < |Replay(Empty, events).ran| && j < |Replay(Empty, events).ran|
    ensures var ran := Replay(Empty, events).ran;
            && ran[i].entry.due <= ran[i].at
            && (ran[i].entry.order == ran[j].entry.order ==> i == j)
  {
    ReplayKeepsInv(Empty, events);
    assert Replay(Empty, events).ran[i] in Replay(Empty, events).ran;
  }

  lemma RanInOrder(q: Queue, i: nat, j: nat)
    requires Inv(q) && i < |q.ran| && j < |q.ran| && Precedes(q.ran[i].entry, q.ran[j].entry)
    ensures i < j
  {
  }

  lemma QueuedIsNotOvertaken(q: Queue, a: Entry, j: nat)
    requires Inv(q) && j < |q.ran| && Precedes(a, q.ran[j].entry)
    ensures a !in q.tasks
  {
    assert q.ran[j] in q.ran;
  }

  /** A task scheduled earlier and not due later is never overtaken: if the later one ran, the earlier one ran,
      and ran before it. */
  lemma NeverOvertaken(events: seq<Event>, a: Entry, j: nat)
    requires var q := Replay(Empty, events);
             && j < |q.ran| && Precedes(a, q.ran[j].entry)
             && (a in q.tasks || exists r :: r in q.ran && r.entry == a)
    ensures var q := Replay(Empty, events);
            a !in q.tasks && exists i :: 0 <= i < j && q.ran[i].entry == a
  {
    hide Replay, Inv, Precedes;
    var q := Replay(Empty, events);
    ReplayKeepsInv(Empty, events);
    QueuedIsNotOvertaken(q, a, j);
    var r :| r in q.ran && r.entry == a;
    var i :| 0 <= i < |q.ran| && q.ran[i] == r;
    RanInOrder(q, i, j);
    assert q.ran[i].entry == a;
  }

  ghost predicate Accounted(q: Queue, n: nat) {
    (exists e :: e in q.tasks && e.order == n) || (exists r :: r in q.ran && r.entry.order == n)
  }

  lemma ScheduleAccounts(q: Queue, now: int, delay: nat, n: nat)
    requires Inv(q)
    ensures Accounted(Step(q, Scheduled(now, delay)), n) <==> Accounted(q, n) || n == q.issued
  {
    hide Insert;
    var e := Entry(now + delay * NS_PER_MS, q.issued);
    InsertKeepsSorted(q.tasks, e);
    assert e in Insert(q.tasks, e);
  }

  lemma PollAccounts(q: Queue, now: int, n: nat)
    ensures Accounted(Step(q, Polled(now)), n) <==> Accounted(q, n)
  {
    if HasDue(q, now) {
      var head, next := q.tasks[0], Step(q, Polled(now));
      assert q.tasks == [head] + next.tasks;
      assert next.ran[|q.ran|] == Ran(head, now);
      forall r ensures r in next.ran <==> r in q.ran || r == Ran(head, now) {
      }
      forall e ensures e in q.tasks <==> e in next.tasks || e == head {
      }
    }
  }

  /** Nothing is lost or invented: the tasks numbered so far are exactly those still queued and those that ran. */
  lemma {:induction false} EveryTaskAccountedFor(events: seq<Event>, n: nat)
    ensures n < Replay(Empty, events).issued <==> Accounted(Replay(Empty, events), n)
    decreases |events|
  {
    if events != [] {
      var before, e := events[..|events| - 1], events[|events| - 1];
      EveryTaskAccountedFor(before, n);
      ReplayKeepsInv(Empty, before);
      match e
      case Scheduled(now, delay) => ScheduleAccounts(Replay(Empty, before), now, delay, n);
      case Polled(now) => PollAccounts(Replay(Empty, before), now, n);
    }
  }

  /** The `Scheduled` events of a run, in order. */
  function Requests(events: seq<Event>): (r: seq<Event>)
    ensures forall e :: e in r ==> e.Scheduled?
  {
    if events == [] then []
    else
      var before, last := Requests(events[..|events| - 1]), events[|events| - 1];
      if last.Scheduled? then before + [last] else before
  }

  /** The task numbered n is due `delay` milliseconds after the n-th request. */
  ghost predicate AsRequested(e: Entry, requests: seq<Event>)
    requires forall r :: r in requests ==> r.Scheduled?
  {
    e.order < |requests| && e.due == requests[e.order].now + requests[e.order].delay * 1_000_000
  }

  lemma StepAsRequested(q: Queue, e: Event, requests: seq<Event>)
    requires forall r :: r in requests ==> r.Scheduled?
    requires q.issued == |requests| && Sorted(q.tasks) && forall x :: x in q.tasks ==> x.order < q.issued
    requires forall x :: x in q.tasks ==> AsRequested(x, requests)
    requires forall r :: r in q.ran ==> AsRequested(r.entry, requests)
    ensures var next, more := Step(q, e), if e.Scheduled? then requests + [e] else requests;
            && next.issued == |more|
            && (forall x :: x in next.tasks ==> AsRequested(x, more))
            && (forall r :: r in next.ran ==> AsRequested(r.entry, more))
  {
    hide Insert;
    if e.Scheduled? {
      InsertKeepsSorted(q.tasks, Entry(e.now + e.delay * NS_PER_MS, q.issued));
    } else if HasDue(q, e.now) {
      assert q.tasks[0] in q.tasks;
      forall r | r in Step(q, e).ran ensures r in q.ran || r == Ran(q.tasks[0], e.now) {
      }
    }
  }

  /** In every run the tasks are those that were requested, each due when its delay is over. */
  lemma {:induction false} TasksAreAsRequested(events: seq<Event>)
    ensures var q, requests := Replay(Empty, events), Requests(events);
            && q.issued == |requests|
            && (forall e :: e in q.tasks ==> AsRequested(e, requests))
            && (forall r :: r in q.ran ==> AsRequested(r.entry, requests))
    decreases |events|
  {
    hide AsRequested, Step;
    if events != [] {
      var before := events[..|events| - 1];
      TasksAreAsRequested(before);
      ReplayKeepsInv(Empty, before);
      StepAsRequested(Replay(Empty, before), events[|events| - 1], Requests(before));
    }
  }

  /** No task runs before its delay is over. */
  lemma RunsAfterItsDelay(events: seq<Event>, i: nat)
    requires i < |Replay(Empty, events).ran|
    ensures var r, requests := Replay(Empty, events).ran[i], Requests(events);
            && r.entry.order < |requests|
            && requests[r.entry.order].Scheduled?
            && requests[r.entry.order].now + requests[r.entry.order].delay * 1_000_000 <= r.at
  {
    hide Replay, Requests;
    var ran := Replay(Empty, events).ran;
    assert ran[i] in ran;
    TasksAreAsRequested(events);
    RunsOnceAndNotEarly(events, i, i);
  }

  /** A poll runs a task exactly if some queued task is due. */
  lemma PollRunsIffDue(q: Queue, now: int)
    requires Inv(q)
    ensures |Step(q, Polled(now)).ran| == |q.ran| + if exists e :: e in q.tasks && e.due <= now then 1 else 0
  {
    forall e | e in q.tasks ensures q.tasks[0].due <= e.due {
      var k :| 0 <= k < |q.tasks| && q.tasks[k] == e;
      if k > 0 {
        assert Before(q.tasks[0], q.tasks[k]);
      }
    }
    if q.tasks != [] {
      assert q.tasks[0] in q.tasks;
    }
  }

  /** The task a poll takes is the least in due time, the oldest among equals, of all that are queued. */
  lemma PollTakesLeast(q: Queue, now: int, x: Entry)
    requires Inv(q) && HasDue(q, now) && x in q.tasks
    ensures x == q.tasks[0] || Before(q.tasks[0], x)
  {
    var k :| 0 <= k < |q.tasks| && q.tasks[k] == x;
    if k > 0 {
      assert Before(q.tasks[0], q.tasks[k]);
    }
  }

  /** What other threads, or the running task itself, schedule between poll k and the next. */
  function Arrivals(arrivals: seq<seq<Event>>, k: nat): seq<Event> {
    if k < |arrivals| then arrivals[k] else []
  }

  function ArrivalCount(arrivals: seq<seq<Event>>, from: nat): nat
    decreases |arrivals| - from
  {
    if from >= |arrivals| then 0 else |arrivals[from]| + ArrivalCount(arrivals, from + 1)
  }

  ghost predicate OnlyArrivals(arrivals: seq<seq<Event>>) {
    forall k, i :: 0 <= k < |arrivals| && 0 <= i < |arrivals[k]| ==> arrivals[k][i].Scheduled?
  }

  /** The first n turns of the draining loop: poll k reads the clock for the k-th time, and then its task runs. */
  function Turns(clock: nat -> int, arrivals: seq<seq<Event>>, n: nat): seq<Event> {
    if n == 0 then [] else Turns(clock, arrivals, n - 1) + [Polled(clock(n - 1))] + Arrivals(arrivals, n - 1)
  }

  class Scheduler {
    var tasks: seq<Entry>
    var issued: nat
    var ran: seq<Ran>

    ghost function State(): Queue
      reads this
    {
      Queue(tasks, issued, ran)
    }

    ghost predicate Valid()
      reads this
    {
      Inv(State())
    }

    constructor ()
      ensures Valid() && State() == Empty
    {
      tasks, issued, ran := [], 0, [];
    }

    method ScheduleTask(now: int, delay: nat)
      requires Valid()
      modifies this
      ensures Valid() && State() == Step(old(State()), Scheduled(now, delay))
    {
      hide Insert;
      hide Inv;
      StepKeepsInv(State(), Scheduled(now, delay));
      tasks := Insert(tasks, Entry(now + delay * NS_PER_MS, issued));
      issued := issued + 1;
    }

    /** Milliseconds the control loop may sleep: none without tasks, and otherwise as long as possible without
        passing the earliest due time. */
    method NextTaskTimeout(now: int) returns (timeout: Option<int>)
      requires Valid()
      ensures timeout.None? <==> tasks == []
      ensures timeout.Some? ==>
                && timeout.value >= 0
                && (timeout.value > 0 ==> forall e :: e in tasks ==> now + timeout.value * NS_PER_MS <= e.due)
                && exists e :: e in tasks && e.due < now + (timeout.value + 1) * NS_PER_MS
    {
      if tasks == [] {
        return None;
      }
      var dueAt := tasks[0].due;
      assert tasks[0] in tasks;
      forall e | e in tasks ensures dueAt <= e.due {
        var k :| 0 <= k < |tasks| && tasks[k] == e;
        if k > 0 {
          assert Before(tasks[0], tasks[k]);
        }
      }
      if dueAt <= now {
        assert tasks[0].due < now + (0 + 1) * NS_PER_MS;
        return Some(0);
      }
      timeout := Some((dueAt - now) / NS_PER_MS);
      assert tasks[0].due < now + (timeout.value + 1) * NS_PER_MS;
    }

    /** The draining loop. `clock(k)` is the k-th reading of the clock and `arrivals[k]` what is scheduled while the
        k-th task runs. Each turn runs one task, and on return nothing is queued that was due at the last reading. */
    method RunDueTasks(clock: nat -> int, arrivals: seq<seq<Event>>)
      requires Valid()
      requires OnlyArrivals(arrivals)
      modifies this
      ensures Valid() && old(ran) <= ran
      ensures State() == Replay(old(State()), Turns(clock, arrivals, |ran| - old(|ran|)))
      ensures forall k :: old(|ran|) <= k < |ran| ==> ran[k].at == clock(k - old(|ran|))
      ensures forall e :: e in tasks ==> clock(|ran| - old(|ran|)) < e.due
    {
      hide Insert, Replay, Turns, Inv;
      var n := 0;
      NoTurns(clock, arrivals);
      ReplayNone(State());
      while tasks != []
        invariant Valid() && old(ran) <= ran && |ran| == old(|ran|) + n
        invariant State() == Replay(old(State()), Turns(clock, arrivals, n))
        invariant forall k :: old(|ran|) <= k < |ran| ==> ran[k].at == clock(k - old(|ran|))
        decreases |tasks| + ArrivalCount(arrivals, n)
      {
        var now := clock(n);
        if tasks[0].due > now {
          NothingDue(State(), now);
          return;
        }
        NextTurn(old(State()), clock, arrivals, n);
        StepKeepsInv(State(), Polled(now));
        ran := ran + [Ran(tasks[0], now)];
        tasks := tasks[1..];
        AcceptArrivals(Arrivals(arrivals, n));
        n := n + 1;
      }
    }

    method AcceptArrivals(arrivals: seq<Event>)
      requires Valid() && forall i :: 0 <= i < |arrivals| ==> arrivals[i].Scheduled?
      modifies this
      ensures Valid() && State() == Replay(old(State()), arrivals)
      ensures |tasks| == old(|tasks|) + |arrivals| && ran == old(ran)
    {
      hide Insert;
      hide Inv;
      for i := 0 to |arrivals|
        invariant Valid() && State() == Replay(old(State()), arrivals[..i])
        invariant |tasks| == old(|tasks|) + i && ran == old(ran)
      {
        var e := arrivals[i];
        InsertLength(tasks, Entry(e.now + e.delay * NS_PER_MS, issued));
        ReplayOne(old(State()), arrivals[..i], e);
        assert arrivals[..i + 1] == arrivals[..i] + [e];
        ScheduleTask(e.now, e.delay);
      }
      assert arrivals[..|arrivals|] == arrivals;
    }
  }

  lemma {:induction false} ReplayMore(q: Queue, events: seq<Event>, more: seq<Event>)
    ensures Replay(q, events + more) == Replay(Replay(q, events), more)
    decreases |more|
  {
    hide Step;
    if more == [] {
      assert events + more == events;
    } else {
      var n := |more| - 1;
      ReplayMore(q, events, more[..n]);
      assert (events + more)[..|events + more| - 1] == events + more[..n];
    }
  }

  lemma NoTurns(clock: nat -> int, arrivals: seq<seq<Event>>)
    ensures Turns(clock, arrivals, 0) == []
  {
  }

  lemma NextTurn(q: Queue, clock: nat -> int, arrivals: seq<seq<Event>>, n: nat)
    ensures var before := Replay(q, Turns(clock, arrivals, n));
            Replay(q, Turns(clock, arrivals, n + 1)) == Replay(Step(before, Polled(clock(n))), Arrivals(arrivals, n))
  {
    hide Replay, Step;
    ReplayOne(q, Turns(clock, arrivals, n), Polled(clock(n)));
    ReplayMore(q, Turns(clock, arrivals, n) + [Polled(clock(n))], Arrivals(arrivals, n));
  }

  lemma NothingDue(q: Queue, now: int)
    requires Inv(q) && q.tasks != [] && now < q.tasks[0].due
    ensures forall e :: e in q.tasks ==> now < e.due
  {
    forall e | e in q.tasks ensures now < e.due {
      var k :| 0 <= k < |q.tasks| && q.tasks[k] == e;
      if k > 0 {
        assert Before(q.tasks[0], q.tasks[k]);
      }
    }
  }

  lemma ReplayNone(q: Queue)
    ensures Replay(q, []) == q
  {
  }

  lemma ReplayOne(q: Queue, events: seq<Event>, e: Event)
    ensures Replay(q, events + [e]) == Step(Replay(q, events), e)
  {
    assert (events + [e])[..|events|] == events;
  }

  lemma InsertLength(q: seq<Entry>, e: Entry)
    ensures |Insert(q, e)| == |q| + 1
  {
    assert |multiset(Insert(q, e))| == |q| + 1;
  }
}
