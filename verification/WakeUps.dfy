/**
 No wake-up is lost: whoever waits in asyncio.wait for a future that is done has its next step
 queued or a callback that will queue it, so the loop never hangs.
 */
module WakeUps {
  import opened Sequences
  import opened EventLoop
  import opened Lifecycle

  /** Each future of `fs` will wake the waiter: its callback is registered, or queued, or has
      queued the step `wake` already. */
  predicate WaiterOk(s: State, w: Waiter, fs: set<Fut>, gen: nat, wake: Handle) {
    forall f :: f in fs ==>
      && f in s.objs
      && if s.objs[f].phase.Done? then WaitCb(w, gen, f) in s.ready || wake in s.ready
         else WaitCb(w, gen, f) in s.objs[f].callbacks
  }

  /** An object that has not begun is queued; a waiting task is woken by its jobs and by a
      cancellation. */
  predicate ObjWoken(s: State, t: Fut)
    requires t in s.objs
  {
    var o := s.objs[t];
    && (o.phase.Fresh? ==> Resume(t) in s.ready)
    && (o.phase.Waiting? ==>
          && o.phase.fs != {} && (o.cancel ==> Resume(t) in s.ready)
          && WaiterOk(s, TaskWaiter(t), o.phase.fs, o.phase.gen, Resume(t)))
  }

  predicate RootWoken(s: State) {
    && (s.root.Draining? ==> s.root.waited != {} && WaiterOk(s, RootWaiter, s.root.waited, s.root.gen, ResumeRoot))
    && (s.root.AwaitCleanups? ==>
          && (forall f :: f in s.root.missing && f in s.cleaned ==> CleanupWaitCb(f) in s.ready)
          && (s.root.missing == {} ==> ResumeRoot in s.ready))
  }

  predicate Woken(s: State) {
    RootWoken(s) && forall t :: t in s.objs ==> ObjWoken(s, t)
  }

  // ------------------------------------------------- what every step respects

  /** Callbacks are only added, and all are queued when the future is done. */
  predicate CbFlow(o: Obj, o1: Obj, ready: seq<Handle>) {
    if o.phase.Done? then o1.phase.Done?
    else forall h :: h in o.callbacks ==> if o1.phase.Done? then h in ready else h in o1.callbacks
  }

  predicate QueueFlow(a: seq<Handle>, b: seq<Handle>) {
    forall h :: h in a ==> h in b
  }

  predicate Flow(s: State, s1: State) {
    QueueFlow(s.ready, s1.ready) && forall f :: f in s.objs ==> f in s1.objs && CbFlow(s.objs[f], s1.objs[f], s1.ready)
  }

  lemma FlowTwice(s: State, s1: State, s2: State)
    requires Flow(s, s1) && Flow(s1, s2)
    ensures Flow(s, s2)
  {
    forall f | f in s.objs ensures f in s2.objs && CbFlow(s.objs[f], s2.objs[f], s2.ready) {
      assert CbFlow(s.objs[f], s1.objs[f], s1.ready) && CbFlow(s1.objs[f], s2.objs[f], s2.ready);
    }
  }

  lemma WaiterFlow(s: State, s1: State, w: Waiter, fs: set<Fut>, gen: nat, wake: Handle)
    requires WaiterOk(s, w, fs, gen, wake) && Flow(s, s1)
    ensures WaiterOk(s1, w, fs, gen, wake)
  {
    forall f | f in fs
      ensures f in s1.objs
      ensures if s1.objs[f].phase.Done? then WaitCb(w, gen, f) in s1.ready || wake in s1.ready
              else WaitCb(w, gen, f) in s1.objs[f].callbacks
    {
      assert CbFlow(s.objs[f], s1.objs[f], s1.ready);
    }
  }

  /** Object `t` has not moved; if it was cancelled, it was woken. */
  predicate Still(s: State, s1: State, t: Fut)
    requires t in s.objs
  {
    && t in s1.objs && s1.objs[t].phase == s.objs[t].phase
    && (s1.objs[t].cancel ==> s.objs[t].cancel || s1.objs[t].phase.Done? || Resume(t) in s1.ready)
  }

  lemma StillWoken(s: State, s1: State, t: Fut)
    requires t in s.objs && ObjWoken(s, t) && Flow(s, s1) && Still(s, s1, t)
    ensures ObjWoken(s1, t)
  {
    var o := s.objs[t];
    if o.phase.Waiting? {
      WaiterFlow(s, s1, TaskWaiter(t), o.phase.fs, o.phase.gen, Resume(t));
    }
  }

  // ------------------------------------------------- the pieces of a step

  lemma StartFlow(s: State, kind: Kind, fs: seq<Fut>)
    requires forall f :: f in fs ==> f !in s.objs
    ensures Flow(s, StartAll(s, kind, fs))
    ensures forall t :: t in s.objs ==> Still(s, StartAll(s, kind, fs), t)
    ensures var s1 := StartAll(s, kind, fs);
            forall t :: t in s1.objs && t !in s.objs ==> ObjWoken(s1, t)
  {
    forall i | 0 <= i < |fs| ensures Resume(fs[i]) in StartAll(s, kind, fs).ready {
      assert Resumes(fs)[i] == Resume(fs[i]);
    }
  }

  lemma SetFlow(s: State, f: Fut, o: Obj)
    requires f in s.objs && o.callbacks == s.objs[f].callbacks && !o.phase.Done? && !s.objs[f].phase.Done?
    ensures Flow(s, SetObj(s, f, o))
  {
  }

  lemma CompleteFlow(s: State, f: Fut)
    requires f in s.objs
    ensures Flow(s, Complete(s, f))
  {
  }

  lemma {:induction false} CancelWakesAll(s: State, order: seq<Fut>, f: Fut)
    requires f in order && Cancellable(s, f)
    ensures Resume(f) in s.ready || Resume(f) in CancelWakes(s, order)
  {
    if order[0] != f {
      CancelWakesAll(s, order[1..], f);
    }
  }

  lemma CancelFlow(s: State, order: seq<Fut>)
    ensures Flow(s, CancelAll(s, order))
    ensures forall t :: t in s.objs ==> Still(s, CancelAll(s, order), t)
  {
    var s1 := CancelAll(s, order);
    forall t | t in s.objs ensures Still(s, s1, t) {
      if t in order && Cancellable(s, t) {
        CancelWakesAll(s, order, t);
      }
    }
  }

  lemma {:induction false} WaitCbsAll(s: State, w: Waiter, order: seq<Fut>, f: Fut)
    requires f in order && IsDone(s, f)
    ensures WaitCb(w, s.gen, f) in WaitCbs(s, w, order)
  {
    if order[0] != f {
      WaitCbsAll(s, w, order[1..], f);
    }
  }

  lemma RegisterFlow(s: State, w: Waiter, order: seq<Fut>)
    ensures Flow(s, Register(s, w, order))
    ensures forall t :: t in s.objs ==> Still(s, Register(s, w, order), t)
  {
  }

  lemma RegisterWaits(s: State, w: Waiter, order: seq<Fut>, fs: set<Fut>, wake: Handle)
    requires Enumerates(order, fs) && fs <= s.objs.Keys
    ensures WaiterOk(Register(s, w, order), w, fs, s.gen, wake)
  {
    forall f | f in fs && IsDone(s, f) ensures WaitCb(w, s.gen, f) in WaitCbs(s, w, order) {
      WaitCbsAll(s, w, order, f);
    }
  }

  // ------------------------------------------------- a step of a task

  /** What the turn of `t` guarantees: `t` and everybody else is woken. */
  ghost predicate Moved(s: State, s1: State, t: Fut) {
    && Flow(s, s1) && s1.root == s.root && s1.cleaned == s.cleaned
    && (forall g :: g in s.objs && g != t ==> Still(s, s1, g))
    && (forall g :: g in s1.objs && (g == t || g !in s.objs) ==> ObjWoken(s1, g))
  }

  lemma TaskWaitMoved(s: State, t: Fut, second: bool, fs: set<Fut>, c: Choice)
    requires t in s.objs && !s.objs[t].phase.Done? && fs <= s.objs.Keys
    requires fs != {} ==> Enumerates(c.waitOrder, fs)
    ensures Moved(s, TaskWait(s, t, second, fs, c), t)
  {
    if fs == {} {
      CompleteFlow(s, t);
    } else {
      var o := s.objs[t].(phase := Waiting(second, fs, s.gen), cancel := false, started := s.objs[t].started + fs);
      var s1 := SetObj(s, t, o);
      SetFlow(s, t, o);
      RegisterFlow(s1, TaskWaiter(t), c.waitOrder);
      RegisterWaits(s1, TaskWaiter(t), c.waitOrder, fs, Resume(t));
      FlowTwice(s, s1, Register(s1, TaskWaiter(t), c.waitOrder));
    }
  }

  /** A first part that leaves everybody as he was, and then a move. */
  lemma MovedAfter(s: State, s1: State, s2: State, t: Fut)
    requires Flow(s, s1) && s1.root == s.root && s1.cleaned == s.cleaned && Moved(s1, s2, t) && t in s.objs
    requires forall g :: g in s.objs && g != t ==> Still(s, s1, g)
    requires forall g :: g in s1.objs && g !in s.objs ==> ObjWoken(s1, g)
    ensures Moved(s, s2, t)
  {
    FlowTwice(s, s1, s2);
    forall g | g in s2.objs && (g == t || g !in s.objs) ensures ObjWoken(s2, g) {
      if g != t && g in s1.objs {
        StillWoken(s1, s2, g);
      }
    }
  }

  lemma FreshMoved(s: State, t: Fut, c: Choice)
    requires t in s.objs && s.objs[t].phase.Fresh? && forall f :: f in c.starts ==> f !in s.objs
    requires !s.objs[t].cancel ==> Enumerates(c.waitOrder, Elems(c.starts))
    ensures Moved(s, StepTask(s, t, c), t)
  {
    if s.objs[t].cancel {
      CompleteFlow(s, t);
    } else {
      var s1 := StartAll(s, CiJob, c.starts);
      StartFlow(s, CiJob, c.starts);
      TaskWaitMoved(s1, t, false, Elems(c.starts), c);
      MovedAfter(s, s1, StepTask(s, t, c), t);
    }
  }

  lemma WaitingMoved(s: State, t: Fut, c: Choice)
    requires t in s.objs && s.objs[t].phase.Waiting? && s.objs[t].phase.fs <= s.objs.Keys
    requires var o := s.objs[t];
             Enumerates(c.waitOrder,
               if !o.cancel then Undone(s, o.phase.fs) else if o.phase.second then {} else o.phase.fs)
    ensures Moved(s, StepTask(s, t, c), t)
  {
    var o := s.objs[t];
    if !o.cancel {
      TaskWaitMoved(s, t, o.phase.second, Undone(s, o.phase.fs), c);
    } else if o.phase.second {
      CompleteFlow(s, t);
    } else {
      var s1 := CancelAll(s, c.cancelOrder);
      CancelFlow(s, c.cancelOrder);
      TaskWaitMoved(s1, t, true, o.phase.fs, c);
      MovedAfter(s, s1, StepTask(s, t, c), t);
    }
  }

  lemma ActivateMoved(s: State, f: Fut, c: Choice)
    requires f in s.objs && !s.objs[f].phase.Done? && forall g :: g in c.starts ==> g !in s.objs
    ensures Moved(s, StartAll(SetObj(s, f, s.objs[f].(phase := Active, cancel := false)), CiTask, c.starts), f)
  {
    var o := s.objs[f].(phase := Active, cancel := false);
    var s1 := SetObj(s, f, o);
    SetFlow(s, f, o);
    StartFlow(s1, CiTask, c.starts);
    FlowTwice(s, s1, StartAll(s1, CiTask, c.starts));
  }

  lemma CompleteMoved(s: State, f: Fut)
    requires f in s.objs
    ensures Moved(s, Complete(s, f), f)
  {
    CompleteFlow(s, f);
  }

  lemma MovedTwice(s: State, s1: State, s2: State, t: Fut)
    requires Moved(s, s1, t) && Moved(s1, s2, t) && t in s.objs
    ensures Moved(s, s2, t)
  {
    MovedAfter(s, s1, s2, t);
  }

  lemma BodyMoved(s: State, f: Fut, c: Choice)
    requires f in s.objs && !s.objs[f].phase.Done? && forall g :: g in c.starts ==> g !in s.objs
    ensures Moved(s, StepBody(s, f, c), f)
  {
    var s1 := StartAll(SetObj(s, f, s.objs[f].(phase := Active, cancel := false)), CiTask, c.starts);
    ActivateMoved(s, f, c);
    if c.finish {
      CompleteMoved(s1, f);
      MovedTwice(s, s1, Complete(s1, f), f);
    }
  }

  // ------------------------------------------------- turns

  /** The head of the queue is not one that `t` depends on. */
  lemma PopWoken(s: State, t: Fut)
    requires s.ready != [] && t in s.objs && ObjWoken(s, t) && s.ready[0] != Resume(t)
    requires s.objs[t].phase.Waiting? ==> forall f :: s.ready[0] != WaitCb(TaskWaiter(t), s.objs[t].phase.gen, f)
    ensures ObjWoken(Pop(s), t)
  {
    PopIn(s);
  }

  lemma PopIn(s: State)
    requires s.ready != []
    ensures forall h :: h in s.ready && h != s.ready[0] ==> h in Pop(s).ready
  {
    assert s.ready == [s.ready[0]] + s.ready[1..];
  }

  lemma PopRoot(s: State)
    requires s.ready != [] && RootWoken(s) && s.ready[0] != ResumeRoot
    requires !s.ready[0].WaitCb? && !s.ready[0].CleanupWaitCb?
    ensures RootWoken(Pop(s))
  {
    PopIn(s);
  }

  lemma RootFlow(s: State, s1: State)
    requires RootWoken(s) && Flow(s, s1) && s1.root == s.root && s1.cleaned == s.cleaned
    ensures RootWoken(s1)
  {
    if s.root.Draining? {
      WaiterFlow(s, s1, RootWaiter, s.root.waited, s.root.gen, ResumeRoot);
    }
  }

  lemma MovedWoken(s: State, s1: State, t: Fut)
    requires Moved(s, s1, t) && RootWoken(s) && forall g :: g in s.objs && g != t ==> ObjWoken(s, g)
    ensures Woken(s1)
  {
    RootFlow(s, s1);
    forall g | g in s1.objs ensures ObjWoken(s1, g) {
      if g in s.objs && g != t {
        StillWoken(s, s1, g);
      }
    }
  }

  lemma ResumeWoken(s: State, f: Fut, c: Choice)
    requires Inv(s) && Woken(s) && s.ready != [] && s.ready[0] == Resume(f) && ChoiceOk(s, Resume(f), c)
    ensures Woken(TurnOf(s, c))
  {
    ResumeIsLive(s, f);
    var p := Pop(s);
    PopRoot(s);
    forall g | g in p.objs && g != f ensures ObjWoken(p, g) {
      PopWoken(s, g);
    }
    ResumeMoved(s, f, c);
    MovedWoken(p, TurnOf(s, c), f);
  }

  lemma ResumeMoved(s: State, f: Fut, c: Choice)
    requires Inv(s) && s.ready != [] && s.ready[0] == Resume(f) && ChoiceOk(s, Resume(f), c)
    requires f in s.objs && !s.objs[f].phase.Done?
    ensures Moved(Pop(s), TurnOf(s, c), f)
  {
    var o := s.objs[f];
    assert TaskOk(s, o);
    if !o.kind.CiTask? {
      BodyMoved(Pop(s), f, c);
    } else if o.phase.Fresh? {
      FreshMoved(Pop(s), f, c);
    } else {
      assert Undone(Pop(s), o.phase.fs) == Undone(s, o.phase.fs);
      WaitingMoved(Pop(s), f, c);
    }
  }

  // ------------------------------------------------- Root.run

  lemma EnterDrainWoken(s: State, c: Choice)
    requires s.table <= s.objs.Keys && (forall g :: g in s.objs ==> ObjWoken(s, g))
    requires s.table != {} ==> Enumerates(c.waitOrder, s.table)
    requires s.table == {} ==> Enumerates(c.waitOrder, Elems(s.cleanups))
    ensures Woken(EnterDrain(s, c))
  {
    var s1 := EnterDrain(s, c);
    if s.table == {} {
      assert Flow(s, s1);
      EnterCleanupsWoken(s, c);
    } else {
      var s0 := s.(root := Draining(s.table, s.gen));
      RegisterFlow(s0, RootWaiter, c.waitOrder);
      RegisterWaits(s0, RootWaiter, c.waitOrder, s.table, ResumeRoot);
      assert Flow(s, s1);
    }
    forall g | g in s1.objs ensures ObjWoken(s1, g) {
      StillWoken(s, s1, g);
    }
  }

  lemma {:induction false} CleanupCbsAll(s: State, order: seq<Fut>, f: Fut)
    requires f in order && f in s.cleaned
    ensures CleanupWaitCb(f) in CleanupCbs(s, order)
  {
    if order[0] != f {
      CleanupCbsAll(s, order[1..], f);
    }
  }

  lemma EnterCleanupsWoken(s: State, c: Choice)
    requires Enumerates(c.waitOrder, Elems(s.cleanups))
    ensures RootWoken(EnterCleanups(s, c))
  {
    forall f | f in Elems(s.cleanups) && f in s.cleaned ensures CleanupWaitCb(f) in EnterCleanups(s, c).ready {
      CleanupCbsAll(s, c.waitOrder, f);
    }
    assert s.cleanups != [] ==> s.cleanups[0] in Elems(s.cleanups);
  }

  lemma RootTurnWoken(s: State, c: Choice)
    requires Inv(s) && Woken(s) && s.ready != [] && s.ready[0] == ResumeRoot && ChoiceOk(s, ResumeRoot, c)
    ensures Woken(TurnOf(s, c))
  {
    var p := Pop(s);
    forall g | g in p.objs ensures ObjWoken(p, g) {
      PopWoken(s, g);
    }
    if s.root.AwaitStop? {
      var q := CancelAll(p, c.cancelOrder);
      CancelFlow(p, c.cancelOrder);
      forall g | g in q.objs ensures ObjWoken(q, g) {
        StillWoken(p, q, g);
      }
      EnterDrainWoken(q, c);
    } else if s.root.Draining? {
      assert DrainDone(p) == DrainDone(s);
      var q := p.(table := p.table - DrainDone(p));
      forall g | g in q.objs ensures ObjWoken(q, g) {
        StillWoken(p, q, g);
      }
      EnterDrainWoken(q, c);
    } else {
      OnlyRoot(p, StepRoot(p, c));
    }
  }

  lemma OnlyRoot(s: State, s1: State)
    requires (forall g :: g in s.objs ==> ObjWoken(s, g)) && s1 == s.(root := s1.root) && s1.root.Stopped?
    ensures Woken(s1)
  {
    forall g | g in s1.objs ensures ObjWoken(s1, g) {
      StillWoken(s, s1, g);
    }
  }

  // ------------------------------------------------- callbacks

  /** Handles are appended, and nothing else concerns the objects. */
  lemma AppendWoken(s: State, s1: State)
    requires (forall g :: g in s.objs ==> ObjWoken(s, g)) && s1.objs == s.objs && QueueFlow(s.ready, s1.ready)
    ensures Flow(s, s1) && forall g :: g in s1.objs ==> ObjWoken(s1, g)
  {
    forall g | g in s1.objs ensures ObjWoken(s1, g) {
      StillWoken(s, s1, g);
    }
  }

  /** The callback of a task that waits in this very call has queued its step. */
  lemma CallbackWakes(s: State, s1: State, t: Fut)
    requires t in s.objs && ObjWoken(s, t) && s1.objs == s.objs && s.objs[t].phase.Waiting? && Resume(t) in s1.ready
    ensures ObjWoken(s1, t)
  {
  }

  lemma WaitCbTask(s: State, w: Waiter, gen: nat, f: Fut, t: Fut)
    requires s.ready != [] && s.ready[0] == WaitCb(w, gen, f) && t in s.objs && ObjWoken(s, t)
    ensures ObjWoken(StepWaitCb(Pop(s), w, gen), t)
  {
    var s1 := StepWaitCb(Pop(s), w, gen);
    if w == TaskWaiter(t) && s.objs[t].phase.Waiting? && s.objs[t].phase.gen == gen {
      CallbackWakes(s, s1, t);
    } else {
      PopWoken(s, t);
      StillWoken(Pop(s), s1, t);
    }
  }

  lemma WaitCbRoot(s: State, w: Waiter, gen: nat, f: Fut)
    requires s.ready != [] && s.ready[0] == WaitCb(w, gen, f) && RootWoken(s)
    ensures RootWoken(StepWaitCb(Pop(s), w, gen))
  {
    PopIn(s);
  }

  lemma WaitCbWoken(s: State, c: Choice)
    requires Woken(s) && s.ready != [] && s.ready[0].WaitCb? && ChoiceOk(s, s.ready[0], c)
    ensures Woken(TurnOf(s, c))
  {
    var h := s.ready[0];
    forall t | t in s.objs ensures ObjWoken(StepWaitCb(Pop(s), h.w, h.gen), t) {
      WaitCbTask(s, h.w, h.gen, h.f, t);
    }
    WaitCbRoot(s, h.w, h.gen, h.f);
  }

  lemma CleanupWaitCbRoot(s: State, f: Fut)
    requires s.ready != [] && s.ready[0] == CleanupWaitCb(f) && RootWoken(s)
    ensures RootWoken(StepCleanupWaitCb(Pop(s), f))
  {
    PopIn(s);
  }

  lemma CleanupRoot(s: State, f: Fut, c: Choice)
    requires RootOk(s) && RootWoken(s)
    ensures RootWoken(StepCleanup(s, f, c))
  {
  }

  lemma CallbackWoken(s: State, c: Choice)
    requires Inv(s) && Woken(s) && s.ready != [] && ChoiceOk(s, s.ready[0], c)
    requires s.ready[0].CleanupCb? || s.ready[0].ResumeCleanup? || s.ready[0].CleanupWaitCb?
    ensures Woken(TurnOf(s, c))
  {
    var p := Pop(s);
    forall g | g in p.objs ensures ObjWoken(p, g) {
      PopWoken(s, g);
    }
    AppendWoken(p, TurnOf(s, c));
    match s.ready[0]
    case CleanupCb(f) =>
      PopRoot(s);
      RootFlow(p, TurnOf(s, c));
    case ResumeCleanup(f) =>
      PopKeeps(s);
      PopRoot(s);
      CleanupRoot(p, f, c);
    case CleanupWaitCb(f) => CleanupWaitCbRoot(s, f);
  }

  // ------------------------------------------------- every step and every run

  lemma EnvironmentWoken(s: State, a: Action)
    requires Woken(s) && Enabled(s, a) && !a.Turn?
    ensures Woken(Next(s, a))
  {
    var s1 := Next(s, a);
    if a.Cancel? {
      CancelFlow(s, [a.f]);
      forall g | g in s1.objs ensures ObjWoken(s1, g) {
        StillWoken(s, s1, g);
      }
    } else {
      AppendWoken(s, s1);
    }
    RootFlow(s, s1);
  }

  lemma NextWoken(s: State, a: Action)
    requires Inv(s) && Woken(s) && Enabled(s, a)
    ensures Woken(Next(s, a))
  {
    if !a.Turn? {
      EnvironmentWoken(s, a);
    } else {
      match s.ready[0]
      case Resume(f) => ResumeWoken(s, f, a.c);
      case ResumeRoot => RootTurnWoken(s, a.c);
      case WaitCb(_, _, _) => WaitCbWoken(s, a.c);
      case CleanupCb(_) => CallbackWoken(s, a.c);
      case ResumeCleanup(_) => CallbackWoken(s, a.c);
      case CleanupWaitCb(_) => CallbackWoken(s, a.c);
    }
  }

  lemma InitWoken(services: seq<Fut>)
    ensures Woken(Init(services))
  {
    StartFlow(State([], map[], {}, [], {}, AwaitStop, 0), Service, services);
  }

  lemma {:induction false} WokenRun(s: State, acts: seq<Action>)
    requires Inv(s) && Woken(s) && ValidRun(s, acts)
    ensures Woken(Final(s, acts))
    decreases |acts|
  {
    if acts != [] {
      NextWoken(s, acts[0]);
      NextKeeps(s, acts[0]);
      WokenRun(Next(s, acts[0]), acts[1..]);
    }
  }

  // ------------------------------------------------- the loop never hangs

  /** Somebody outside can move the daemon: a signal, the end of a command of a service or a job, or
      of a cleanup. */
  ghost predicate Movable(s: State) {
    || s.root.AwaitStop?
    || (exists f :: f in s.objs && s.objs[f].phase.Active?)
    || (exists f :: f in s.cleanups && f !in s.cleaned)
  }

  /** The signal has come, every object is done and every scheduled cleanup has finished. */
  predicate AllOver(s: State) {
    && !s.root.AwaitStop? && (forall f :: f in s.objs ==> s.objs[f].phase.Done?)
    && (forall f :: f in s.cleanups ==> f in s.cleaned)
  }

  /** With an empty queue, an unfinished object is a service or a job waiting for its command, or a
      task that waits for such a job. */
  lemma UnfinishedIsActive(s: State, f: Fut) returns (g: Fut)
    requires Inv(s) && Woken(s) && s.ready == [] && f in s.objs && !s.objs[f].phase.Done?
    ensures g in s.objs && s.objs[g].phase.Active?
  {
    var o := s.objs[f];
    assert ObjWoken(s, f) && TaskOk(s, o);
    g := f;
    if o.phase.Waiting? {
      g :| g in o.phase.fs;
      assert g in s.objs && !s.objs[g].phase.Done?;
      assert ObjWoken(s, g) && TaskOk(s, s.objs[g]) && s.objs[g].kind.CiJob?;
    }
  }

  lemma IdleIsMovable(s: State)
    requires Inv(s) && Woken(s) && s.ready == []
    ensures s.root.Stopped? || Movable(s)
  {
    if s.root.Draining? {
      var f :| f in s.root.waited;
      assert f in s.objs && !s.objs[f].phase.Done?;
      var g := UnfinishedIsActive(s, f);
    } else if s.root.AwaitCleanups? {
      var f :| f in s.root.missing;
      assert f in Elems(s.cleanups);
    }
  }

  /** In every reachable state the loop has something queued, or waits for the outside, or has
      stopped: no wake-up is lost. In particular, after the signal, once every object is done and
      every scheduled cleanup has finished, an empty queue means that the loop has stopped. */
  lemma NoLostWakeUp(services: seq<Fut>, acts: seq<Action>)
    requires Distinct(services) && ValidRun(Init(services), acts)
    ensures var s := Final(Init(services), acts);
            && (s.ready != [] || s.root.Stopped? || Movable(s))
            && (s.ready == [] && AllOver(s) ==> s.root.Stopped?)
  {
    InitHolds(services);
    InitWoken(services);
    RunKeeps(Init(services), acts);
    WokenRun(Init(services), acts);
    var s := Final(Init(services), acts);
    if s.ready == [] {
      IdleIsMovable(s);
    }
  }
}
