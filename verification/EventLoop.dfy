/**
 The daemon's event loop, as a transition system over the FIFO ready queue of
 asyncio (rallyci/root.py, rallyci/task.py).

 One `Turn` takes the head of the queue and runs it to its next yield: a step of
 an object's coroutine, a done-callback of a future, or a step of `Root.run`.
 What the environment does (a signal, a finished command, a cancellation) only
 appends to the queue.  Orders that Python leaves open (iteration over sets and
 dictionaries) are part of the action, so a property of every run holds for
 every order.
 */
module EventLoop {
  import opened Sequences

  type Fut = nat

  datatype Kind = Service | CiTask | CiJob

  /** Who is blocked in `asyncio.wait`: `Root.run` or the coroutine of a task. */
  datatype Waiter = RootWaiter | TaskWaiter(t: Fut)

  datatype Handle =
    | Resume(f: Fut)                              // next step of run_obj
    | CleanupCb(f: Fut)                           // Root.schedule_cleanup
    | WaitCb(w: Waiter, gen: nat, f: Fut)         // per-future callback of asyncio.wait
    | ResumeRoot                                  // next step of Root.run
    | ResumeCleanup(f: Fut)                       // next step of run_cleanup
    | CleanupWaitCb(f: Fut)                       // the wait of Root.run on its cleanups

  /** `Waiting` is a task inside wait_fs: `second` tells the call after a
      cancellation from the first one, `fs` is the dictionary still to drain. */
  datatype Phase = Fresh | Active | Waiting(second: bool, fs: set<Fut>, gen: nat) | Done

  datatype Obj = Obj(
    kind: Kind,
    phase: Phase,
    cancel: bool,            // a cancellation not delivered yet
    cancels: nat,            // cancellations requested before completion
    started: set<Fut>,       // the job futures a task has started
    callbacks: seq<Handle>)  // done-callbacks in registration order

  datatype RootPhase =
    | AwaitStop
    | Draining(waited: set<Fut>, gen: nat)
    | AwaitCleanups(awaited: set<Fut>, missing: set<Fut>)
    | Stopped

  datatype State = State(
    ready: seq<Handle>,
    objs: map<Fut, Obj>,     // every object ever started
    table: set<Fut>,         // keys of Root._running_objects
    cleanups: seq<Fut>,      // Root._running_cleanups, named by the object cleaned
    cleaned: set<Fut>,       // cleanups that have finished
    root: RootPhase,
    gen: nat)                // numbers the calls of asyncio.wait

  /** How a turn resolves what the code leaves open. */
  datatype Choice = Choice(starts: seq<Fut>, finish: bool, cancelOrder: seq<Fut>, waitOrder: seq<Fut>)

  datatype Action =
    | Turn(c: Choice)
    | Wake(f: Fut)           // the command or timer an object waits for is over
    | WakeCleanup(f: Fut)
    | Signal                 // SIGINT sets stop_event
    | Cancel(f: Fut)         // a cancellation from anywhere

  // ---------------------------------------------------------------- helpers

  predicate IsDone(s: State, f: Fut) {
    f in s.objs && s.objs[f].phase.Done?
  }

  /** What is left of the dictionary of wait_fs once the finished futures are deleted. */
  function Undone(s: State, fs: set<Fut>): set<Fut> {
    set f | f in fs && !IsDone(s, f)
  }

  /** `order` is one way to iterate over the set `fs`. */
  predicate Enumerates(order: seq<Fut>, fs: set<Fut>) {
    && Distinct(order)
    && (forall f :: f in order ==> f in fs)
    && (forall f :: f in fs ==> f in order)
  }

  function Elems(order: seq<Fut>): set<Fut> {
    set f | f in order
  }

  function Resumes(order: seq<Fut>): (hs: seq<Handle>)
    ensures |hs| == |order|
    ensures forall i :: 0 <= i < |hs| ==> hs[i] == Resume(order[i])
  {
    seq(|order|, i requires 0 <= i < |order| => Resume(order[i]))
  }

  /** Root.start_obj for each future of `fs`: queue the first step, register
      schedule_cleanup first, enter the running table. */
  function StartAll(s: State, kind: Kind, fs: seq<Fut>): State {
    s.(ready := s.ready + Resumes(fs),
       objs := s.objs + map f | f in fs :: Obj(kind, Fresh, false, 0, {}, [CleanupCb(f)]),
       table := s.table + Elems(fs))
  }

  /** The coroutine of `f` returns: its callbacks are queued in order. */
  function Complete(s: State, f: Fut): State
    requires f in s.objs
  {
    var o := s.objs[f];
    s.(ready := s.ready + o.callbacks,
       objs := s.objs[f := o.(phase := Done, cancel := false, callbacks := [])])
  }

  predicate Cancellable(s: State, f: Fut) {
    f in s.objs && !s.objs[f].phase.Done?
  }

  /** The wake-ups `fut.cancel()` queues: a future that is done ignores it, one whose
      next step is queued already only remembers it. */
  function CancelWakes(s: State, order: seq<Fut>): (hs: seq<Handle>) {
    if order == [] then []
    else
      (if Cancellable(s, order[0]) && Resume(order[0]) !in s.ready then [Resume(order[0])] else [])
      + CancelWakes(s, order[1..])
  }

  /** `for fut in order: fut.cancel()` */
  function CancelAll(s: State, order: seq<Fut>): State {
    s.(ready := s.ready + CancelWakes(s, order),
       objs := map f | f in s.objs ::
         if f in order && !s.objs[f].phase.Done?
         then s.objs[f].(cancel := true, cancels := s.objs[f].cancels + 1)
         else s.objs[f])
  }

  /** Registering on a future that is done queues the callback at once. */
  function WaitCbs(s: State, w: Waiter, order: seq<Fut>): (hs: seq<Handle>) {
    if order == [] then []
    else
      (if IsDone(s, order[0]) then [WaitCb(w, s.gen, order[0])] else [])
      + WaitCbs(s, w, order[1..])
  }

  /** asyncio.wait(order) up to its yield.  Callbacks of an earlier wait stay
      registered; they carry an old generation and do nothing when they run. */
  function Register(s: State, w: Waiter, order: seq<Fut>): State {
    s.(ready := s.ready + WaitCbs(s, w, order),
       objs := map f | f in s.objs ::
         if f in order && !s.objs[f].phase.Done?
         then s.objs[f].(callbacks := s.objs[f].callbacks + [WaitCb(w, s.gen, f)])
         else s.objs[f],
       gen := s.gen + 1)
  }

  function SetObj(s: State, f: Fut, o: Obj): State {
    s.(objs := s.objs[f := o])
  }

  // ---------------------------------------------------------------- steps

  /** One step of a service or a job. */
  function StepBody(s: State, f: Fut, c: Choice): State
    requires f in s.objs
  {
    var s1 := StartAll(SetObj(s, f, s.objs[f].(phase := Active, cancel := false)), CiTask, c.starts);
    if c.finish then Complete(s1, f) else s1
  }

  /** A task (re-)enters wait_fs with the dictionary `fs`: it returns when `fs` is empty. */
  function TaskWait(s: State, t: Fut, second: bool, fs: set<Fut>, c: Choice): State
    requires t in s.objs
  {
    if fs == {} then Complete(s, t)
    else
      var o := s.objs[t].(phase := Waiting(second, fs, s.gen), cancel := false, started := s.objs[t].started + fs);
      Register(SetObj(s, t, o), TaskWaiter(t), c.waitOrder)
  }

  /** One step of Task.run. */
  function StepTask(s: State, t: Fut, c: Choice): State
    requires t in s.objs
  {
    var o := s.objs[t];
    match o.phase
    case Fresh =>
      if o.cancel then Complete(s, t)
      else
        TaskWait(StartAll(s, CiJob, c.starts), t, false, Elems(c.starts), c)
    case Waiting(second, fs, gen) =>
      if o.cancel then
        if second then Complete(s, t)
        else TaskWait(CancelAll(s, c.cancelOrder), t, true, fs, c)
      else TaskWait(s, t, second, Undone(s, fs), c)
    case Active => s
    case Done => s
  }

  /** Root.run reaches the wait on the cleanups. */
  function EnterCleanups(s: State, c: Choice): State {
    if s.cleanups == [] then s.(root := Stopped)
    else
      var all := Elems(s.cleanups);
      s.(root := AwaitCleanups(all, all), ready := s.ready + CleanupCbs(s, c.waitOrder))
  }

  function CleanupCbs(s: State, order: seq<Fut>): (hs: seq<Handle>) {
    if order == [] then []
    else (if order[0] in s.cleaned then [CleanupWaitCb(order[0])] else []) + CleanupCbs(s, order[1..])
  }

  /** The head of the loop in wait_fs(self._running_objects). */
  function EnterDrain(s: State, c: Choice): State {
    if s.table == {} then EnterCleanups(s, c)
    else Register(s.(root := Draining(s.table, s.gen)), RootWaiter, c.waitOrder)
  }

  /** What wait_fs deletes from Root._running_objects when it resumes. */
  function DrainDone(s: State): set<Fut> {
    if s.root.Draining? then set f | f in s.root.waited && IsDone(s, f) else {}
  }

  /** One step of Root.run. */
  function StepRoot(s: State, c: Choice): State {
    match s.root
    case AwaitStop => EnterDrain(CancelAll(s, c.cancelOrder), c)
    case Draining(waited, gen) => EnterDrain(s.(table := s.table - DrainDone(s)), c)
    case AwaitCleanups(awaited, missing) => s.(root := Stopped)
    case Stopped => s
  }

  /** A callback of asyncio.wait: the first one resumes the waiter. */
  function StepWaitCb(s: State, w: Waiter, gen: nat): State {
    match w
    case RootWaiter =>
      if s.root.Draining? && s.root.gen == gen && ResumeRoot !in s.ready
      then s.(ready := s.ready + [ResumeRoot]) else s
    case TaskWaiter(t) =>
      if t in s.objs && s.objs[t].phase.Waiting? && s.objs[t].phase.gen == gen && Resume(t) !in s.ready
      then s.(ready := s.ready + [Resume(t)]) else s
  }

  /** Root.schedule_cleanup: `pop` raises when the entry is gone, and then no
      cleanup is scheduled. */
  function StepCleanupCb(s: State, f: Fut): State {
    if f in s.table
    then s.(table := s.table - {f}, cleanups := s.cleanups + [f], ready := s.ready + [ResumeCleanup(f)])
    else s
  }

  function StepCleanup(s: State, f: Fut, c: Choice): State {
    if !c.finish then s
    else s.(cleaned := s.cleaned + {f},
            ready := s.ready + (if s.root.AwaitCleanups? && f in s.root.awaited then [CleanupWaitCb(f)] else []))
  }

  function StepCleanupWaitCb(s: State, f: Fut): State {
    if !s.root.AwaitCleanups? then s
    else
      var missing := s.root.missing - {f};
      s.(root := AwaitCleanups(s.root.awaited, missing),
         ready := s.ready + (if missing == {} && ResumeRoot !in s.ready then [ResumeRoot] else []))
  }

  function Pop(s: State): State
    requires s.ready != []
  {
    s.(ready := s.ready[1..])
  }

  /** Which choices a turn of the handle `h` may make. */
  predicate ChoiceOk(s: State, h: Handle, c: Choice) {
    && Distinct(c.starts) && (forall f :: f in c.starts ==> f !in s.objs)
    && match h
       case Resume(f) =>
         && f in s.objs
         && var o := s.objs[f];
         && (!(o.kind.Service? || (o.kind.CiTask? && o.phase.Fresh? && !o.cancel)) ==> c.starts == [])
         && (o.phase.Fresh? && o.cancel ==> c.starts == [] && c.finish)
         && Enumerates(c.cancelOrder, if o.phase.Waiting? && o.cancel && !o.phase.second then o.phase.fs else {})
         && Enumerates(c.waitOrder,
              if o.kind.CiTask? && o.phase.Fresh? && !o.cancel then Elems(c.starts)
              else if !o.phase.Waiting? then {}
              else if o.cancel then (if o.phase.second then {} else o.phase.fs)
              else Undone(s, o.phase.fs))
       case ResumeRoot =>
         && c.starts == []
         && Enumerates(c.cancelOrder, if s.root.AwaitStop? then s.table else {})
         && Enumerates(c.waitOrder,
              if s.root.AwaitStop? && s.table != {} then s.table
              else if s.root.Draining? && s.table - DrainDone(s) != {} then s.table - DrainDone(s)
              else Elems(s.cleanups))
       case _ => c.starts == []
  }

  function TurnOf(s: State, c: Choice): State
    requires s.ready != [] && ChoiceOk(s, s.ready[0], c)
  {
    var p := Pop(s);
    match s.ready[0]
    case Resume(f) => if s.objs[f].kind.CiTask? then StepTask(p, f, c) else StepBody(p, f, c)
    case CleanupCb(f) => StepCleanupCb(p, f)
    case WaitCb(w, gen, f) => StepWaitCb(p, w, gen)
    case ResumeRoot => StepRoot(p, c)
    case ResumeCleanup(f) => StepCleanup(p, f, c)
    case CleanupWaitCb(f) => StepCleanupWaitCb(p, f)
  }

  predicate Enabled(s: State, a: Action) {
    match a
    case Turn(c) => s.ready != [] && ChoiceOk(s, s.ready[0], c)
    case Wake(f) => f in s.objs && s.objs[f].phase.Active? && Resume(f) !in s.ready
    case WakeCleanup(f) => f in s.cleanups && f !in s.cleaned && ResumeCleanup(f) !in s.ready
    case Signal => s.root.AwaitStop? && ResumeRoot !in s.ready
    case Cancel(f) => Cancellable(s, f)
  }

  function Next(s: State, a: Action): State
    requires Enabled(s, a)
  {
    match a
    case Turn(c) => TurnOf(s, c)
    case Wake(f) => s.(ready := s.ready + [Resume(f)])
    case WakeCleanup(f) => s.(ready := s.ready + [ResumeCleanup(f)])
    case Signal => s.(ready := s.ready + [ResumeRoot])
    case Cancel(f) => CancelAll(s, [f])
  }

  /** Root.run up to stop_event.wait(): the services are started. */
  function Init(services: seq<Fut>): State {
    StartAll(State([], map[], {}, [], {}, AwaitStop, 0), Service, services)
  }

  predicate ValidRun(s: State, acts: seq<Action>)
    decreases |acts|
  {
    acts == [] || (Enabled(s, acts[0]) && ValidRun(Next(s, acts[0]), acts[1..]))
  }

  function Final(s: State, acts: seq<Action>): State
    requires ValidRun(s, acts)
    decreases |acts|
  {
    if acts == [] then s else Final(Next(s, acts[0]), acts[1..])
  }
}
