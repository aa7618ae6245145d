/**
 * Per-host admission control of the crawler (the inner class `HostDownloader`).
 *
 * A host keeps a FIFO queue of tasks and a counter `readyToRun` of free slots,
 * which starts at `perHost`.  `submit` enqueues and then tries to dispatch;
 * `ready` dispatches only while a slot is free and `run` hands the head task to
 * the download pool, taking one slot.  The wrapper around every dispatched task
 * gives the slot back (`finish`) in a `finally` block and tries to dispatch
 * again (`ready`), whatever the task did.
 *
 * The pure functions below describe one step of that state machine on an
 * abstract `Host` value; the class `HostDownloader` is the mutable object whose
 * methods are proved to perform exactly those steps.
 */
module HostDownloader {
  import opened Wrappers

  /** The abstract state of one host.  `running`, `started` and `submitted`
      are bookkeeping the crawler's code does not keep: the tasks now in flight, every
      task dispatched so far (in dispatch order) and every task submitted so
      far (in submission order). */
  datatype Host<T> = Host(
    perHost: int,
    tasks: seq<T>,
    readyToRun: int,
    running: multiset<T>,
    started: seq<T>,
    submitted: seq<T>)

  function Max0(n: int): nat {
    if n > 0 then n else 0
  }

  /** Bookkeeping that holds between any two steps: every slot is either free
      or taken by one in-flight task, no more tasks are in flight than the
      limit allows, tasks start in submission order, and only started tasks
      are in flight. */
  ghost predicate Consistent<T>(h: Host<T>) {
    && h.readyToRun + |h.running| == h.perHost
    && |h.running| <= Max0(h.perHost)
    && h.submitted == h.started + h.tasks
    && h.running <= multiset(h.started)
  }

  /** The invariant between public operations: in addition, no slot is left
      free while a task waits. */
  ghost predicate Inv<T>(h: Host<T>) {
    Consistent(h) && (h.readyToRun > 0 ==> h.tasks == [])
  }

  predicate Idle<T>(h: Host<T>) {
    h.tasks == [] && h.running == multiset{}
  }

  /** A freshly created host: all slots free, nothing queued. */
  function Init<T>(perHost: int): (h: Host<T>)
    ensures Inv(h) && Idle(h)
    ensures h.perHost == perHost && h.readyToRun == perHost && h.submitted == []
  {
    Host(perHost, [], perHost, multiset{}, [], [])
  }

  /** `ready` followed by `run`: the head task is dispatched exactly when a
      slot is free and the queue is not empty; it takes one slot. */
  function ReadyStep<T>(h: Host<T>): (r: (Host<T>, Option<T>))
    requires Consistent(h)
    ensures Consistent(r.0)
    ensures r.0.perHost == h.perHost && r.0.submitted == h.submitted
    ensures r.1.Some? <==> h.readyToRun > 0 && h.tasks != []
    ensures r.1.Some? ==>
              && r.1.value == h.tasks[0]
              && r.0.tasks == h.tasks[1..]
              && r.0.readyToRun == h.readyToRun - 1
              && r.0.running == h.running + multiset{r.1.value}
              && r.0.started == h.started + [r.1.value]
    ensures r.1.None? ==> r.0 == h
  {
    if h.readyToRun > 0 && h.tasks != [] then
      var t := h.tasks[0];
      (h.(tasks := h.tasks[1..], readyToRun := h.readyToRun - 1,
          running := h.running + multiset{t}, started := h.started + [t]),
       Some(t))
    else
      (h, None)
  }

  /** `submit`: enqueue, then `ready`.  With a free slot the submitted task
      starts at once; without one the call only enqueues.  Either way at most
      one task starts. */
  function SubmitStep<T>(h: Host<T>, t: T): (r: (Host<T>, Option<T>))
    requires Inv(h)
    ensures Inv(r.0)
    ensures r.0.perHost == h.perHost && r.0.submitted == h.submitted + [t]
    ensures h.readyToRun > 0 ==>
              && r.1 == Some(t)
              && r.0.tasks == []
              && r.0.readyToRun == h.readyToRun - 1
              && r.0.running == h.running + multiset{t}
    ensures h.readyToRun <= 0 ==>
              r.1 == None && r.0 == h.(tasks := h.tasks + [t], submitted := h.submitted + [t])
    ensures r.0.started == h.started + (if r.1.Some? then [r.1.value] else [])
  {
    ReadyStep(h.(tasks := h.tasks + [t], submitted := h.submitted + [t]))
  }

  /** The `finally` block of a dispatched task: `finish` gives the slot of the
      in-flight task `t` back, then `ready` starts the head of the queue if
      there is one.  At most one task starts. */
  function CompleteStep<T>(h: Host<T>, t: T): (r: (Host<T>, Option<T>))
    requires Inv(h) && t in h.running
    ensures Inv(r.0)
    ensures r.0.perHost == h.perHost && r.0.submitted == h.submitted
    ensures r.1 == (if h.tasks == [] then None else Some(h.tasks[0]))
    ensures r.0.tasks == (if h.tasks == [] then [] else h.tasks[1..])
    ensures r.0.started == h.started + (if r.1.Some? then [r.1.value] else [])
    ensures r.0.running ==
              h.running - multiset{t} + (if r.1.Some? then multiset{r.1.value} else multiset{})
    ensures r.0.readyToRun == h.readyToRun + (if r.1.Some? then 0 else 1)
  {
    ReadyStep(h.(readyToRun := h.readyToRun + 1, running := h.running - multiset{t}))
  }

  /** What can happen to a host: a submission, or the end of an in-flight task
      (normal or by an exception; the wrapper treats both alike). */
  datatype Event<T> = Submitted(task: T) | Completed(task: T)

  predicate Enabled<T>(h: Host<T>, e: Event<T>) {
    e.Completed? ==> e.task in h.running
  }

  /** One event; it appends what it dispatched to `started` and what it
      submitted to `submitted`. */
  function Step<T>(h: Host<T>, e: Event<T>): (r: (Host<T>, Option<T>))
    requires Inv(h) && Enabled(h, e)
    ensures Inv(r.0) && r.0.perHost == h.perHost
    ensures r.0.started == h.started + Dispatched(r.1)
    ensures r.0.submitted == h.submitted + (if e.Submitted? then [e.task] else [])
  {
    match e
    case Submitted(t) => SubmitStep(h, t)
    case Completed(t) => CompleteStep(h, t)
  }

  /** Only tasks that are in flight complete. */
  ghost predicate Legal<T>(h: Host<T>, evs: seq<Event<T>>)
    requires Inv(h)
    decreases |evs|
  {
    evs == [] || (Enabled(h, evs[0]) && Legal(Step(h, evs[0]).0, evs[1..]))
  }

  /** The state after a sequence of events, and the tasks they dispatched. */
  ghost function Run<T>(h: Host<T>, evs: seq<Event<T>>): (Host<T>, seq<T>)
    requires Inv(h) && Legal(h, evs)
    decreases |evs|
  {
    if evs == [] then (h, [])
    else
      var s := Step(h, evs[0]);
      var rest := Run(s.0, evs[1..]);
      (rest.0, Dispatched(s.1) + rest.1)
  }

  function Dispatched<T>(o: Option<T>): seq<T> {
    if o.Some? then [o.value] else []
  }

  function SubmittedIn<T>(evs: seq<Event<T>>): seq<T> {
    if evs == [] then []
    else (if evs[0].Submitted? then [evs[0].task] else []) + SubmittedIn(evs[1..])
  }

  lemma ConcatAssoc<T>(a: seq<T>, b: seq<T>, c: seq<T>)
    ensures (a + b) + c == a + (b + c)
  {
  }

  /** Running a sequence that starts with `e` is one step followed by the rest. */
  lemma RunCons<T>(h: Host<T>, e: Event<T>, rest: seq<Event<T>>)
    requires Inv(h) && Enabled(h, e)
    ensures Legal(h, [e] + rest) <==> Legal(Step(h, e).0, rest)
    ensures Legal(h, [e] + rest) ==>
              Run(h, [e] + rest) ==
              (Run(Step(h, e).0, rest).0, Dispatched(Step(h, e).1) + Run(Step(h, e).0, rest).1)
  {
    assert ([e] + rest)[0] == e;
    assert ([e] + rest)[1..] == rest;
  }

  /** Over any legal run: the invariant is kept, the tasks dispatched are
      exactly those appended to `started` (so they start in submission order),
      and no event dispatches more than one task. */
  lemma {:induction false} RunKeepsInvariant<T>(h: Host<T>, evs: seq<Event<T>>)
    requires Inv(h) && Legal(h, evs)
    ensures Inv(Run(h, evs).0)
    ensures Run(h, evs).0.perHost == h.perHost
    ensures Run(h, evs).0.started == h.started + Run(h, evs).1
    ensures Run(h, evs).0.submitted == h.submitted + SubmittedIn(evs)
    ensures |Run(h, evs).1| <= |evs|
    decreases |evs|
  {
    if evs != [] {
      var s := Step(h, evs[0]);
      var rest := Run(s.0, evs[1..]);
      RunKeepsInvariant(s.0, evs[1..]);
      assert Run(h, evs) == (rest.0, Dispatched(s.1) + rest.1);
      ConcatAssoc(h.started, Dispatched(s.1), rest.1);
      ConcatAssoc(h.submitted, if evs[0].Submitted? then [evs[0].task] else [], SubmittedIn(evs[1..]));
    }
  }

  lemma PrefixOfConcat<T>(a: seq<T>, b: seq<T>)
    ensures a <= a + b
  {
    assert (a + b)[..|a|] == a;
  }

  /** From a fresh host with a non-negative limit, after any legal run: the
      free-slot counter stays in [0, perHost], the tasks in flight never exceed
      perHost, every slot is free or taken, tasks start in submission order,
      and all slots are free once nothing is in flight. */
  lemma HostBounds<T>(perHost: int, evs: seq<Event<T>>)
    requires perHost >= 0 && Legal(Init(perHost), evs)
    ensures var h := Run(Init<T>(perHost), evs).0;
      && 0 <= h.readyToRun <= perHost
      && |h.running| <= perHost
      && h.readyToRun + |h.running| == perHost
      && h.started <= SubmittedIn(evs)
      && (h.running == multiset{} ==> h.readyToRun == perHost)
  {
    var h0 := Init<T>(perHost);
    RunKeepsInvariant(h0, evs);
    var h := Run(h0, evs).0;
    assert h0.submitted + SubmittedIn(evs) == SubmittedIn(evs);
    PrefixOfConcat(h.started, h.tasks);
  }

  /** Every waiting task eventually starts: completing the in-flight tasks one
      by one empties the queue, frees every slot, and by then every submitted
      task has been dispatched. */
  lemma {:induction false} Drain<T>(h: Host<T>) returns (evs: seq<Event<T>>, last: Host<T>)
    requires Inv(h) && h.perHost > 0
    ensures Legal(h, evs) && last == Run(h, evs).0
    ensures forall e | e in evs :: e.Completed?
    ensures Idle(last) && last.readyToRun == h.perHost && last.started == h.submitted
    decreases 2 * |h.tasks| + |h.running|
  {
    if h.running == multiset{} {
      evs, last := [], h;
      assert h.started + h.tasks == h.started;
    } else {
      var t :| t in h.running;
      var h1 := CompleteStep(h, t).0;
      assert |h1.running| + 2 * |h1.tasks| < |h.running| + 2 * |h.tasks|;
      var rest;
      rest, last := Drain(h1);
      evs := [Completed(t)] + rest;
      RunCons(h, Completed(t), rest);
    }
  }

  /** One slot, two submissions: the second waits until the first finishes,
      then starts; at most one is ever in flight. */
  lemma OneSlotScenario<T>(p1: T, p2: T)
    ensures var (h1, o1) := SubmitStep(Init<T>(1), p1);
      && o1 == Some(p1) && h1.readyToRun == 0
      && var (h2, o2) := SubmitStep(h1, p2);
      && o2 == None && h2.tasks == [p2] && |h2.running| == 1
      && var (h3, o3) := CompleteStep(h2, p1);
      && o3 == Some(p2) && h3.tasks == [] && h3.running == multiset{p2}
      && var (h4, o4) := CompleteStep(h3, p2);
      && o4 == None && Idle(h4) && h4.readyToRun == 1
  {
  }

  /** The mutable per-host object.  `running`, `started` and `submitted` are
      ghost: the crawler's code keeps only the queue and the counter. */
  class HostDownloader<T> {
    const perHost: int
    var tasks: seq<T>
    var readyToRun: int
    ghost var running: multiset<T>
    ghost var started: seq<T>
    ghost var submitted: seq<T>

    ghost function State(): Host<T>
      reads this
    {
      Host(perHost, tasks, readyToRun, running, started, submitted)
    }

    ghost predicate Valid()
      reads this
    {
      Inv(State())
    }

    /** Nothing queued, nothing in flight, every slot free: `Idle(State())`
        with all slots free and every submitted task dispatched, spelled out
        on the fields. */
    ghost predicate Quiet()
      reads this
      ensures Quiet() ==> Valid()
    {
      tasks == [] && running == multiset{} && readyToRun == perHost && submitted == started
    }

    constructor (perHost: int)
      ensures Valid() && Quiet() && State() == Init(perHost)
    {
      this.perHost := perHost;
      tasks := [];
      readyToRun := perHost;
      running := multiset{};
      started := [];
      submitted := [];
    }

    /** `ready` and `run`: returns the task handed to the download pool, if any. */
    method Dispatch() returns (task: Option<T>)
      requires Consistent(State())
      modifies this
      ensures (State(), task) == ReadyStep(old(State()))
    {
      task := None;
      if readyToRun > 0 {
        if tasks != [] {
          var t := tasks[0];
          tasks := tasks[1..];
          readyToRun := readyToRun - 1;
          running := running + multiset{t};
          started := started + [t];
          task := Some(t);
        }
      }
    }

    /** `submit`: returns the task this call dispatched, if any. */
    method Submit(t: T) returns (task: Option<T>)
      requires Valid()
      modifies this
      ensures Valid()
      ensures (State(), task) == SubmitStep(old(State()), t)
    {
      tasks := tasks + [t];
      submitted := submitted + [t];
      task := Dispatch();
    }

    /** The `finally` block around the in-flight task `t`: `finish`, then
        `ready`.  Returns the task this completion dispatched, if any. */
    method Complete(ghost t: T) returns (task: Option<T>)
      requires Valid() && t in running
      modifies this
      ensures Valid()
      ensures (State(), task) == CompleteStep(old(State()), t)
    {
      readyToRun := readyToRun + 1;
      running := running - multiset{t};
      task := Dispatch();
    }
  }
}
