/**
 What every turn of the event loop keeps: the invariant behind the cleanup,
 shutdown and publication theorems of module Shutdown.
 */
module Lifecycle {
  import opened Sequences
  import opened EventLoop

  function Count(s: State, h: Handle): nat {
    multiset(s.ready)[h]
  }

  predicate OwnCallbacks(cs: seq<Handle>, f: Fut) {
    cs != [] && cs[0] == CleanupCb(f) && forall i :: 1 <= i < |cs| ==> cs[i].WaitCb?
  }

  /** Completion, the running table and the one cleanup callback of `f` agree. */
  ghost predicate EntryOk(s: State, f: Fut)
    requires f in s.objs
  {
    var o := s.objs[f];
    && Count(s, Resume(f)) <= 1
    && (o.phase.Done? ==>
          && Count(s, Resume(f)) == 0 && o.callbacks == []
          && Count(s, CleanupCb(f)) <= 1 && (f in s.table ==> Count(s, CleanupCb(f)) == 1))
    && (!o.phase.Done? ==>
          && f in s.table && f !in s.cleanups
          && Count(s, CleanupCb(f)) == 0 && OwnCallbacks(o.callbacks, f))
    && (f in s.cleanups ==> f !in s.table && Count(s, CleanupCb(f)) == 0)
  }

  ghost predicate AllDone(s: State, fs: set<Fut>) {
    forall f :: f in fs ==> IsDone(s, f)
  }

  /** A job that a task no longer waits for is done, unless the task was cancelled twice. */
  ghost predicate TaskOk(s: State, o: Obj) {
    && (o.kind.CiTask? ==> !o.phase.Active?)
    && (!o.kind.CiTask? ==> o.started == {} && !o.phase.Waiting?)
    && (o.phase.Fresh? ==> o.started == {})
    && (forall g :: g in o.started ==> g in s.objs && s.objs[g].kind.CiJob?)
    && (o.cancel ==> o.cancels >= 1)
    && (o.phase.Waiting? ==>
          && o.phase.fs <= o.started
          && (o.phase.second ==> o.cancels >= if o.cancel then 2 else 1)
          && AllDone(s, o.started - o.phase.fs))
    && (o.phase.Done? && o.cancels <= 1 ==> AllDone(s, o.started))
  }

  ghost predicate RootOk(s: State) {
    match s.root
    case AwaitStop => true
    case Draining(waited, _) => waited <= s.objs.Keys
    case AwaitCleanups(awaited, missing) =>
      && s.table == {} && awaited == Elems(s.cleanups)
      && missing <= awaited && awaited - missing <= s.cleaned
      && (Count(s, ResumeRoot) > 0 ==> missing == {})
    case Stopped => s.table == {} && Elems(s.cleanups) <= s.cleaned
  }

  ghost predicate QueueOk(s: State) {
    && (forall f :: Count(s, Resume(f)) > 0 ==> f in s.objs)
    && (forall f :: Count(s, CleanupCb(f)) > 0 ==> f in s.objs)
    && (forall f :: Count(s, ResumeCleanup(f)) > 0 ==> f in s.cleanups)
    && (forall f :: Count(s, CleanupWaitCb(f)) > 0 ==> f in s.cleaned)
    && Count(s, ResumeRoot) <= 1
  }

  ghost predicate TableOk(s: State) {
    && s.table <= s.objs.Keys
    && Distinct(s.cleanups) && (forall f :: f in s.cleanups ==> f in s.objs)
    && s.cleaned <= Elems(s.cleanups)
  }

  ghost predicate Inv(s: State) {
    && QueueOk(s) && TableOk(s) && RootOk(s)
    && (forall f :: f in s.objs ==> EntryOk(s, f))
    && (forall f :: f in s.objs ==> TaskOk(s, s.objs[f]))
  }

  // ------------------------------------------------- queue arithmetic

  lemma PopCounts(s: State, h: Handle)
    requires s.ready != []
    ensures Count(Pop(s), h) == Count(s, h) - if s.ready[0] == h then 1 else 0
    ensures h in Pop(s).ready ==> h in s.ready
  {
    assert s.ready == [s.ready[0]] + s.ready[1..];
  }

  lemma AppendCounts(a: seq<Handle>, b: seq<Handle>, h: Handle)
    ensures multiset(a + b)[h] == multiset(a)[h] + multiset(b)[h]
  {
  }

  lemma ResumesCount(fs: seq<Fut>, h: Handle)
    requires Distinct(fs)
    ensures multiset(Resumes(fs))[h] == if h.Resume? && h.f in fs then 1 else 0
  {
    if fs != [] {
      var n := |fs| - 1;
      assert fs == fs[..n] + [fs[n]];
      assert Resumes(fs) == Resumes(fs[..n]) + [Resume(fs[n])];
      ResumesCount(fs[..n], h);
    }
  }

  lemma CancelWakesCount(s: State, order: seq<Fut>, h: Handle)
    requires Distinct(order)
    ensures multiset(CancelWakes(s, order))[h] ==
            if h.Resume? && h.f in order && Cancellable(s, h.f) && h !in s.ready then 1 else 0
  {
    if order != [] {
      assert order == [order[0]] + order[1..];
      CancelWakesCount(s, order[1..], h);
    }
  }

  lemma WaitCbsAreWaitCbs(s: State, w: Waiter, order: seq<Fut>, h: Handle)
    ensures h in WaitCbs(s, w, order) ==> h.WaitCb?
    ensures !h.WaitCb? ==> multiset(WaitCbs(s, w, order))[h] == 0
  {
    if order != [] {
      WaitCbsAreWaitCbs(s, w, order[1..], h);
    }
  }

  lemma CleanupCbsAreDone(s: State, order: seq<Fut>, h: Handle)
    ensures h in CleanupCbs(s, order) ==> h.CleanupWaitCb? && h.f in s.cleaned
  {
    if order != [] {
      CleanupCbsAreDone(s, order[1..], h);
    }
  }

  lemma CallbacksCount(cs: seq<Handle>, f: Fut, h: Handle)
    requires OwnCallbacks(cs, f)
    ensures !h.WaitCb? ==> multiset(cs)[h] == if h == CleanupCb(f) then 1 else 0
  {
    var rest := cs[1..];
    assert cs == [cs[0]] + rest;
    assert !h.WaitCb? ==> h !in rest;
  }

  // ------------------------------------------------- frames

  /** What is started or done in `s` is so in `s1`. */
  ghost predicate Later(s: State, s1: State) {
    && (forall f :: IsDone(s, f) ==> IsDone(s1, f))
    && (forall f :: f in s.objs ==> f in s1.objs && s1.objs[f].kind == s.objs[f].kind)
  }

  lemma TaskFrame(s: State, s1: State, o: Obj)
    requires TaskOk(s, o) && Later(s, s1)
    ensures TaskOk(s1, o)
  {
  }

  /** `o1` is as far along as `o`, and may have gained callbacks of asyncio.wait. */
  predicate SameEntry(f: Fut, o: Obj, o1: Obj) {
    && o1.kind == o.kind && o1.phase.Done? == o.phase.Done?
    && (o.callbacks == [] ==> o1.callbacks == [])
    && (OwnCallbacks(o.callbacks, f) ==> OwnCallbacks(o1.callbacks, f))
  }

  /** The queues differ only in callbacks of asyncio.wait and in first wake-ups
      of unfinished objects. */
  ghost predicate SameQueue(s: State, s1: State) {
    && (forall h: Handle :: !h.WaitCb? && !h.Resume? ==> Count(s1, h) == Count(s, h))
    && (forall f :: Count(s1, Resume(f)) == Count(s, Resume(f)) || (Cancellable(s, f) && Count(s1, Resume(f)) <= 1))
  }

  ghost predicate SameTables(s: State, s1: State) {
    && s1.table == s.table && s1.cleanups == s.cleanups && s1.cleaned == s.cleaned && s1.root == s.root
    && s1.objs.Keys == s.objs.Keys
    && (forall f :: f in s.objs ==> SameEntry(f, s.objs[f], s1.objs[f]))
  }

  lemma InvFrame(s: State, s1: State)
    requires Inv(s) && SameTables(s, s1) && SameQueue(s, s1)
    requires forall f :: f in s.objs ==> TaskOk(s, s1.objs[f])
    ensures Inv(s1)
  {
    forall f | f in s1.objs ensures EntryOk(s1, f) {
      assert EntryOk(s, f) && SameEntry(f, s.objs[f], s1.objs[f]);
    }
    forall f | f in s1.objs ensures TaskOk(s1, s1.objs[f]) {
      assert SameTables(s, s1);
      TaskFrame(s, s1, s1.objs[f]);
    }
  }

  // ------------------------------------------------- operations

  lemma PopKeeps(s: State)
    requires Inv(s) && s.ready != [] && !s.ready[0].CleanupCb?
    ensures Inv(Pop(s))
    ensures Count(Pop(s), s.ready[0]) == Count(s, s.ready[0]) - 1
  {
    var s1 := Pop(s);
    forall h: Handle ensures Count(s1, h) == Count(s, h) - if s.ready[0] == h then 1 else 0 {
      PopCounts(s, h);
    }
    forall f | f in s1.objs ensures EntryOk(s1, f) {
      assert EntryOk(s, f);
    }
    forall f | f in s1.objs ensures TaskOk(s1, s1.objs[f]) {
      TaskFrame(s, s1, s.objs[f]);
    }
  }

  lemma StartAllCount(s: State, kind: Kind, fs: seq<Fut>, h: Handle)
    requires Distinct(fs)
    ensures Count(StartAll(s, kind, fs), h) == Count(s, h) + if h.Resume? && h.f in fs then 1 else 0
  {
    ResumesCount(fs, h);
    AppendCounts(s.ready, Resumes(fs), h);
  }

  ghost predicate Started(s: State, s1: State, kind: Kind, fs: seq<Fut>) {
    && (forall f :: f in fs ==> f !in s.objs)
    && s1 == StartAll(s, kind, fs).(ready := s1.ready)
    && (forall h: Handle :: Count(s1, h) == Count(s, h) + if h.Resume? && h.f in fs then 1 else 0)
  }

  lemma StartedEntries(s: State, s1: State, kind: Kind, fs: seq<Fut>)
    requires Inv(s) && Started(s, s1, kind, fs)
    ensures forall f :: f in s1.objs ==> EntryOk(s1, f)
  {
    forall f | f in s1.objs ensures EntryOk(s1, f) {
      assert f in s.objs ==> EntryOk(s, f);
    }
  }

  lemma StartedTasks(s: State, s1: State, kind: Kind, fs: seq<Fut>)
    requires Inv(s) && Started(s, s1, kind, fs)
    ensures forall f :: f in s1.objs ==> TaskOk(s1, s1.objs[f])
  {
    forall f | f in s1.objs ensures TaskOk(s1, s1.objs[f]) {
      if f in s.objs {
        TaskFrame(s, s1, s.objs[f]);
      }
    }
  }

  lemma StartAllKeeps(s: State, kind: Kind, fs: seq<Fut>)
    requires Inv(s) && !s.root.AwaitCleanups? && !s.root.Stopped?
    requires Distinct(fs) && forall f :: f in fs ==> f !in s.objs
    ensures Inv(StartAll(s, kind, fs))
  {
    var s1 := StartAll(s, kind, fs);
    assert Started(s, s1, kind, fs) by {
      forall h: Handle ensures Count(s1, h) == Count(s, h) + if h.Resume? && h.f in fs then 1 else 0 {
        StartAllCount(s, kind, fs, h);
      }
    }
    StartedEntries(s, s1, kind, fs);
    StartedTasks(s, s1, kind, fs);
  }

  lemma CompleteCount(s: State, f: Fut, h: Handle)
    requires f in s.objs && OwnCallbacks(s.objs[f].callbacks, f) && !h.WaitCb?
    ensures Count(Complete(s, f), h) == Count(s, h) + if h == CleanupCb(f) then 1 else 0
  {
    CallbacksCount(s.objs[f].callbacks, f, h);
    AppendCounts(s.ready, s.objs[f].callbacks, h);
  }

  /** `s1` is `s` after `f` has completed, whatever the order of the new callbacks. */
  ghost predicate Completed(s: State, s1: State, f: Fut) {
    && f in s.objs && !s.objs[f].phase.Done? && Count(s, Resume(f)) == 0
    && s1.table == s.table && s1.cleanups == s.cleanups && s1.cleaned == s.cleaned && s1.root == s.root
    && s1.objs == s.objs[f := s.objs[f].(phase := Done, cancel := false, callbacks := [])]
    && (forall h: Handle :: !h.WaitCb? ==> Count(s1, h) == Count(s, h) + if h == CleanupCb(f) then 1 else 0)
  }

  lemma CompletedEntries(s: State, s1: State, f: Fut)
    requires Inv(s) && Completed(s, s1, f)
    ensures forall g :: g in s1.objs ==> EntryOk(s1, g)
  {
    forall g | g in s1.objs ensures EntryOk(s1, g) {
      assert EntryOk(s, g);
    }
  }

  lemma CompletedTasks(s: State, s1: State, f: Fut)
    requires Inv(s) && Completed(s, s1, f)
    requires s.objs[f].cancels <= 1 ==> AllDone(s, s.objs[f].started)
    ensures forall g :: g in s1.objs ==> TaskOk(s1, s1.objs[g])
  {
    forall g | g in s1.objs ensures TaskOk(s1, s1.objs[g]) {
      CompletedTask(s, s1, f, g);
    }
  }

  lemma CompletedTask(s: State, s1: State, f: Fut, g: Fut)
    requires Completed(s, s1, f) && g in s.objs && TaskOk(s, s.objs[g])
    requires s.objs[f].cancels <= 1 ==> AllDone(s, s.objs[f].started)
    ensures TaskOk(s1, s1.objs[g])
  {
    assert Later(s, s1);
    TaskFrame(s, s1, s.objs[g]);
    assert g == f && s.objs[f].cancels <= 1 ==> AllDone(s1, s.objs[f].started);
  }

  lemma CompletedTables(s: State, s1: State, f: Fut)
    requires Inv(s) && Completed(s, s1, f)
    ensures QueueOk(s1) && TableOk(s1) && RootOk(s1)
  {
  }

  lemma CompleteIsCompleted(s: State, f: Fut)
    requires f in s.objs && !s.objs[f].phase.Done? && EntryOk(s, f) && Count(s, Resume(f)) == 0
    ensures Completed(s, Complete(s, f), f)
  {
    forall h: Handle | !h.WaitCb?
      ensures Count(Complete(s, f), h) == Count(s, h) + if h == CleanupCb(f) then 1 else 0
    {
      CompleteCount(s, f, h);
    }
  }

  lemma CompleteKeeps(s: State, f: Fut)
    requires Inv(s) && f in s.objs && !s.objs[f].phase.Done?
    requires Count(s, Resume(f)) == 0
    requires s.objs[f].cancels <= 1 ==> AllDone(s, s.objs[f].started)
    ensures Inv(Complete(s, f))
  {
    CompleteIsCompleted(s, f);
    CompletedEntries(s, Complete(s, f), f);
    CompletedTasks(s, Complete(s, f), f);
    CompletedTables(s, Complete(s, f), f);
  }

  lemma CancelledTask(s: State, o: Obj)
    requires TaskOk(s, o)
    ensures !o.phase.Done? ==> TaskOk(s, o.(cancel := true, cancels := o.cancels + 1))
  {
  }

  lemma CancelAllCount(s: State, order: seq<Fut>, h: Handle)
    requires Distinct(order)
    ensures Count(CancelAll(s, order), h) == Count(s, h) +
            if h.Resume? && h.f in order && Cancellable(s, h.f) && Count(s, h) == 0 then 1 else 0
  {
    CancelWakesCount(s, order, h);
    AppendCounts(s.ready, CancelWakes(s, order), h);
  }

  lemma CancelAllSame(s: State, order: seq<Fut>)
    requires Distinct(order)
    ensures SameQueue(s, CancelAll(s, order)) && SameTables(s, CancelAll(s, order))
  {
    forall h: Handle
      ensures Count(CancelAll(s, order), h) == Count(s, h) +
              if h.Resume? && h.f in order && Cancellable(s, h.f) && Count(s, h) == 0 then 1 else 0
    {
      CancelAllCount(s, order, h);
    }
  }

  lemma CancelAllKeeps(s: State, order: seq<Fut>)
    requires Inv(s) && Distinct(order)
    ensures Inv(CancelAll(s, order))
  {
    CancelAllSame(s, order);
    forall f | f in s.objs ensures TaskOk(s, CancelAll(s, order).objs[f]) {
      CancelledTask(s, s.objs[f]);
    }
    InvFrame(s, CancelAll(s, order));
  }

  lemma CallbackTask(s: State, o: Obj, cs: seq<Handle>)
    requires TaskOk(s, o)
    ensures TaskOk(s, o.(callbacks := cs))
  {
  }

  lemma RegisterCount(s: State, w: Waiter, order: seq<Fut>, h: Handle)
    requires !h.WaitCb?
    ensures Count(Register(s, w, order), h) == Count(s, h)
  {
    WaitCbsAreWaitCbs(s, w, order, h);
    AppendCounts(s.ready, WaitCbs(s, w, order), h);
  }

  lemma RegisterSame(s: State, w: Waiter, order: seq<Fut>)
    requires forall f :: f in s.objs && !s.objs[f].phase.Done? ==> OwnCallbacks(s.objs[f].callbacks, f)
    ensures SameQueue(s, Register(s, w, order)) && SameTables(s, Register(s, w, order))
  {
    forall h: Handle | !h.WaitCb? ensures Count(Register(s, w, order), h) == Count(s, h) {
      RegisterCount(s, w, order, h);
    }
  }

  lemma RegisterKeeps(s: State, w: Waiter, order: seq<Fut>)
    requires Inv(s)
    ensures Inv(Register(s, w, order))
  {
    assert forall f :: f in s.objs && !s.objs[f].phase.Done? ==> EntryOk(s, f);
    RegisterSame(s, w, order);
    forall f | f in s.objs ensures TaskOk(s, Register(s, w, order).objs[f]) {
      CallbackTask(s, s.objs[f], Register(s, w, order).objs[f].callbacks);
    }
    InvFrame(s, Register(s, w, order));
  }

  /** Replacing an object by one that is as far along, with the same callbacks. */
  lemma SetObjKeeps(s: State, f: Fut, o: Obj)
    requires Inv(s) && f in s.objs
    requires !s.objs[f].phase.Done? && !o.phase.Done?
    requires o.callbacks == s.objs[f].callbacks && o.kind == s.objs[f].kind && TaskOk(s, o)
    ensures Inv(SetObj(s, f, o))
  {
    InvFrame(s, SetObj(s, f, o));
  }

  // ------------------------------------------------- steps

  lemma TaskWaitKeeps(s: State, t: Fut, second: bool, fs: set<Fut>, c: Choice)
    requires Inv(s) && t in s.objs && !s.objs[t].phase.Done? && s.objs[t].kind.CiTask?
    requires Count(s, Resume(t)) == 0
    requires AllDone(s, s.objs[t].started - fs)
    requires forall f :: f in fs ==> f in s.objs && s.objs[f].kind.CiJob?
    requires second ==> s.objs[t].cancels >= 1
    ensures Inv(TaskWait(s, t, second, fs, c))
  {
    if fs == {} {
      assert s.objs[t].started - fs == s.objs[t].started;
      CompleteKeeps(s, t);
    } else {
      var o := s.objs[t].(phase := Waiting(second, fs, s.gen), cancel := false, started := s.objs[t].started + fs);
      assert TaskOk(s, s.objs[t]);
      SetObjKeeps(s, t, o);
      RegisterKeeps(SetObj(s, t, o), TaskWaiter(t), c.waitOrder);
    }
  }

  lemma StepTaskKeeps(s: State, t: Fut, c: Choice)
    requires Inv(s) && s.ready != [] && s.ready[0] == Resume(t)
    requires ChoiceOk(s, Resume(t), c) && s.objs[t].kind.CiTask?
    requires s.root.AwaitStop? || s.root.Draining?
    ensures Inv(StepTask(Pop(s), t, c))
  {
    assert EntryOk(s, t);
    PopKeeps(s);
    assert TaskOk(s, s.objs[t]);
    if s.objs[t].phase.Fresh? {
      FreshTaskKeeps(Pop(s), t, c);
    } else if s.objs[t].phase.Waiting? {
      WaitingTaskKeeps(Pop(s), t, c);
    }
  }

  lemma FreshTaskKeeps(p: State, t: Fut, c: Choice)
    requires Inv(p) && t in p.objs && p.objs[t].kind.CiTask? && p.objs[t].phase.Fresh?
    requires Count(p, Resume(t)) == 0 && Distinct(c.starts) && forall f :: f in c.starts ==> f !in p.objs
    requires p.root.AwaitStop? || p.root.Draining?
    ensures Inv(StepTask(p, t, c))
  {
    assert TaskOk(p, p.objs[t]);
    if p.objs[t].cancel {
      CompleteKeeps(p, t);
    } else {
      StartAllKeeps(p, CiJob, c.starts);
      StartAllCount(p, CiJob, c.starts, Resume(t));
      TaskWaitKeeps(StartAll(p, CiJob, c.starts), t, false, Elems(c.starts), c);
    }
  }

  lemma WaitingTaskKeeps(p: State, t: Fut, c: Choice)
    requires Inv(p) && t in p.objs && p.objs[t].kind.CiTask? && p.objs[t].phase.Waiting?
    requires Count(p, Resume(t)) == 0 && Distinct(c.cancelOrder)
    requires p.objs[t].cancel && !p.objs[t].phase.second ==> forall f :: f in c.cancelOrder ==> f in p.objs[t].phase.fs
    ensures Inv(StepTask(p, t, c))
  {
    var Waiting(second, fs, gen) := p.objs[t].phase;
    assert TaskOk(p, p.objs[t]);
    if !p.objs[t].cancel {
      TaskWaitKeeps(p, t, second, Undone(p, fs), c);
    } else if second {
      CompleteKeeps(p, t);
    } else {
      CancelledTaskKeeps(p, t, c);
    }
  }

  /** A task cancelled in its first wait cancels its jobs and waits for them again. */
  lemma CancelledTaskKeeps(p: State, t: Fut, c: Choice)
    requires Inv(p) && t in p.objs && p.objs[t].kind.CiTask?
    requires p.objs[t].phase.Waiting? && p.objs[t].cancel
    requires Count(p, Resume(t)) == 0 && Distinct(c.cancelOrder)
    requires forall f :: f in c.cancelOrder ==> f in p.objs[t].phase.fs
    ensures Inv(TaskWait(CancelAll(p, c.cancelOrder), t, true, p.objs[t].phase.fs, c))
  {
    var s := CancelAll(p, c.cancelOrder);
    CancelAllKeeps(p, c.cancelOrder);
    assert TaskOk(p, p.objs[t]) && TaskOk(s, s.objs[t]);
    CancelAllCount(p, c.cancelOrder, Resume(t));
    TaskWaitKeeps(s, t, true, p.objs[t].phase.fs, c);
  }

  /** Only an unfinished object takes steps, so the running table is not empty. */
  lemma ResumeIsLive(s: State, f: Fut)
    requires Inv(s) && Resume(f) in s.ready
    ensures f in s.objs && !s.objs[f].phase.Done? && f in s.table && Count(s, Resume(f)) == 1
    ensures s.root.AwaitStop? || s.root.Draining?
  {
    assert Count(s, Resume(f)) > 0;
    assert EntryOk(s, f);
  }

  lemma StepBodyKeeps(p: State, f: Fut, c: Choice)
    requires Inv(p) && f in p.objs && !p.objs[f].phase.Done? && !p.objs[f].kind.CiTask?
    requires Count(p, Resume(f)) == 0 && Distinct(c.starts) && forall g :: g in c.starts ==> g !in p.objs
    requires p.root.AwaitStop? || p.root.Draining?
    ensures Inv(StepBody(p, f, c))
  {
    assert TaskOk(p, p.objs[f]);
    var o := p.objs[f].(phase := Active, cancel := false);
    var p1 := SetObj(p, f, o);
    SetObjKeeps(p, f, o);
    StartAllKeeps(p1, CiTask, c.starts);
    if c.finish {
      StartAllCount(p1, CiTask, c.starts, Resume(f));
      CompleteKeeps(StartAll(p1, CiTask, c.starts), f);
    }
  }

  predicate Pushable(s: State, h: Handle) {
    match h
    case Resume(f) => Cancellable(s, f) && h !in s.ready
    case ResumeRoot => h !in s.ready && (s.root.AwaitCleanups? ==> s.root.missing == {})
    case ResumeCleanup(f) => f in s.cleanups
    case CleanupWaitCb(f) => f in s.cleaned
    case WaitCb(_, _, _) => true
    case CleanupCb(_) => false
  }

  ghost predicate Pushed(s: State, s1: State, h: Handle) {
    && s1 == s.(ready := s1.ready)
    && (forall g: Handle :: Count(s1, g) == Count(s, g) + if g == h then 1 else 0)
  }

  lemma PushedEntries(s: State, s1: State, h: Handle)
    requires Inv(s) && Pushable(s, h) && Pushed(s, s1, h)
    ensures forall f :: f in s1.objs ==> EntryOk(s1, f)
  {
    forall f | f in s1.objs ensures EntryOk(s1, f) {
      assert EntryOk(s, f);
    }
  }

  lemma PushedTables(s: State, s1: State, h: Handle)
    requires QueueOk(s) && TableOk(s) && RootOk(s) && Pushable(s, h) && Pushed(s, s1, h)
    ensures QueueOk(s1) && TableOk(s1) && RootOk(s1)
  {
  }

  /** Queueing one more step of an unfinished object, of Root.run or of a cleanup. */
  lemma PushKeeps(s: State, h: Handle)
    requires Inv(s) && Pushable(s, h)
    ensures Inv(s.(ready := s.ready + [h]))
  {
    var s1 := s.(ready := s.ready + [h]);
    forall g: Handle ensures Count(s1, g) == Count(s, g) + if g == h then 1 else 0 {
      AppendCounts(s.ready, [h], g);
    }
    PushedEntries(s, s1, h);
    PushedTables(s, s1, h);
    forall f | f in s1.objs ensures TaskOk(s1, s1.objs[f]) {
      TaskFrame(s, s1, s.objs[f]);
    }
  }

  lemma StepWaitCbKeeps(p: State, w: Waiter, gen: nat)
    requires Inv(p)
    ensures Inv(StepWaitCb(p, w, gen))
  {
    if StepWaitCb(p, w, gen) != p {
      PushKeeps(p, match w case RootWaiter => ResumeRoot case TaskWaiter(t) => Resume(t));
    }
  }

  /** After its one callback has run, `f` is out of the table and cleaned at most once. */
  ghost predicate Popped(s: State, s1: State, f: Fut) {
    && s.ready != [] && s.ready[0] == CleanupCb(f)
    && s1.objs == s.objs && s1.cleaned == s.cleaned && s1.root == s.root
    && (if f in s.table then s1.table == s.table - {f} && s1.cleanups == s.cleanups + [f]
        else s1.table == s.table && s1.cleanups == s.cleanups)
    && (forall h: Handle :: Count(s1, h) == Count(s, h) - (if h == CleanupCb(f) then 1 else 0)
                            + (if h == ResumeCleanup(f) && f in s.table then 1 else 0))
  }

  lemma StepCleanupCbPopped(s: State, f: Fut)
    requires s.ready != [] && s.ready[0] == CleanupCb(f)
    ensures Popped(s, StepCleanupCb(Pop(s), f), f)
  {
    var s1 := StepCleanupCb(Pop(s), f);
    forall h: Handle
      ensures Count(s1, h) == Count(s, h) - (if h == CleanupCb(f) then 1 else 0)
                              + (if h == ResumeCleanup(f) && f in s.table then 1 else 0)
    {
      PopCounts(s, h);
      AppendCounts(Pop(s).ready, [ResumeCleanup(f)], h);
    }
  }

  lemma PoppedEntry(s: State, s1: State, f: Fut, g: Fut)
    requires Popped(s, s1, f) && f in s.objs && g in s.objs
    requires Count(s, CleanupCb(f)) > 0 && EntryOk(s, f) && EntryOk(s, g)
    ensures EntryOk(s1, g)
  {
    assert Count(s1, Resume(g)) == Count(s, Resume(g));
    assert Count(s1, CleanupCb(g)) == Count(s, CleanupCb(g)) - if f == g then 1 else 0;
    assert g in s1.cleanups ==> g in s.cleanups || g == f;
  }

  lemma PoppedEntries(s: State, s1: State, f: Fut)
    requires Inv(s) && Popped(s, s1, f)
    ensures forall g :: g in s1.objs ==> EntryOk(s1, g)
  {
    assert Count(s, CleanupCb(f)) > 0;
    forall g | g in s1.objs ensures EntryOk(s1, g) {
      PoppedEntry(s, s1, f, g);
    }
  }

  lemma PoppedQueue(s: State, s1: State, f: Fut)
    requires QueueOk(s) && Popped(s, s1, f)
    ensures QueueOk(s1)
  {
  }

  lemma PoppedTables(s: State, s1: State, f: Fut)
    requires TableOk(s) && RootOk(s) && Popped(s, s1, f)
    requires f in s.objs && EntryOk(s, f)
    ensures TableOk(s1) && RootOk(s1)
  {
    if f !in s.table {
      assert s1.cleanups == s.cleanups;
    }
  }

  lemma StepCleanupCbKeeps(s: State, f: Fut)
    requires Inv(s) && s.ready != [] && s.ready[0] == CleanupCb(f)
    ensures Inv(StepCleanupCb(Pop(s), f))
  {
    var s1 := StepCleanupCb(Pop(s), f);
    StepCleanupCbPopped(s, f);
    assert Count(s, CleanupCb(f)) > 0;
    assert EntryOk(s, f);
    PoppedEntries(s, s1, f);
    PoppedQueue(s, s1, f);
    PoppedTables(s, s1, f);
    forall g | g in s1.objs ensures TaskOk(s1, s1.objs[g]) {
      TaskFrame(s, s1, s.objs[g]);
    }
  }

  /** A change of what Root.run records about cleanups only. */
  lemma RootFrame(s: State, s1: State)
    requires Inv(s)
    requires s1.ready == s.ready && s1.objs == s.objs && s1.cleanups == s.cleanups && s1.table == s.table
    requires s.cleaned <= s1.cleaned <= Elems(s1.cleanups) && RootOk(s1)
    ensures Inv(s1)
  {
    forall g | g in s1.objs ensures EntryOk(s1, g) {
      assert EntryOk(s, g);
    }
    forall g | g in s1.objs ensures TaskOk(s1, s1.objs[g]) {
      TaskFrame(s, s1, s.objs[g]);
    }
  }

  lemma StepCleanupKeeps(p: State, f: Fut, c: Choice)
    requires Inv(p) && f in p.cleanups
    ensures Inv(StepCleanup(p, f, c))
  {
    if c.finish {
      var p1 := p.(cleaned := p.cleaned + {f});
      assert f in Elems(p.cleanups);
      RootFrame(p, p1);
      if p.root.AwaitCleanups? && f in p.root.awaited {
        PushKeeps(p1, CleanupWaitCb(f));
      } else {
        assert p1 == StepCleanup(p, f, c);
      }
    }
  }

  lemma StepCleanupWaitCbKeeps(p: State, f: Fut)
    requires Inv(p) && f in p.cleaned
    ensures Inv(StepCleanupWaitCb(p, f))
  {
    if p.root.AwaitCleanups? {
      var missing := p.root.missing - {f};
      var p1 := p.(root := AwaitCleanups(p.root.awaited, missing));
      RootFrame(p, p1);
      if missing == {} && ResumeRoot !in p.ready {
        PushKeeps(p1, ResumeRoot);
      } else {
        assert p1 == StepCleanupWaitCb(p, f);
      }
    }
  }

  lemma EnterCleanupsKeeps(s: State, c: Choice)
    requires Inv(s) && s.table == {} && Count(s, ResumeRoot) == 0
    ensures Inv(EnterCleanups(s, c))
  {
    if s.cleanups == [] {
      RootFrame(s, EnterCleanups(s, c));
    } else {
      var all := Elems(s.cleanups);
      var s1 := s.(root := AwaitCleanups(all, all));
      RootFrame(s, s1);
      forall i | 0 <= i < |CleanupCbs(s, c.waitOrder)|
        ensures CleanupCbs(s, c.waitOrder)[i].CleanupWaitCb? && CleanupCbs(s, c.waitOrder)[i].f in s.cleaned
      {
        CleanupCbsAreDone(s, c.waitOrder, CleanupCbs(s, c.waitOrder)[i]);
      }
      PushAllKeeps(s1, CleanupCbs(s, c.waitOrder), EnterCleanups(s, c));
    }
  }

  predicate AllCleaned(hs: seq<Handle>, cleaned: set<Fut>) {
    forall i :: 0 <= i < |hs| ==> hs[i].CleanupWaitCb? && hs[i].f in cleaned
  }

  lemma {:induction false} PushAllKeeps(s: State, hs: seq<Handle>, s1: State)
    requires Inv(s) && AllCleaned(hs, s.cleaned) && s1 == s.(ready := s1.ready) && s1.ready == s.ready + hs
    ensures Inv(s1)
    decreases |hs|
  {
    if hs == [] {
      assert s1 == s;
    } else {
      PushKeeps(s, hs[0]);
      FirstPushed(s.ready, hs, s1.ready);
      PushAllKeeps(s.(ready := s.ready + [hs[0]]), hs[1..], s1);
    }
  }

  lemma FirstPushed(ready: seq<Handle>, hs: seq<Handle>, all: seq<Handle>)
    requires hs != [] && all == ready + hs
    ensures all == ready + [hs[0]] + hs[1..]
  {
  }

  lemma EnterDrainKeeps(s: State, c: Choice)
    requires Inv(s) && Count(s, ResumeRoot) == 0
    ensures Inv(EnterDrain(s, c))
  {
    if s.table == {} {
      EnterCleanupsKeeps(s, c);
    } else {
      var s1 := s.(root := Draining(s.table, s.gen));
      RootFrame(s, s1);
      RegisterKeeps(s1, RootWaiter, c.waitOrder);
    }
  }

  /** wait_fs deletes finished futures: a pending cleanup callback finds nothing then. */
  lemma DrainKeeps(s: State)
    requires Inv(s) && s.root.Draining?
    ensures Inv(s.(table := s.table - DrainDone(s)))
  {
    var s1 := s.(table := s.table - DrainDone(s));
    forall g | g in s1.objs ensures EntryOk(s1, g) {
      assert EntryOk(s, g);
    }
    forall g | g in s1.objs ensures TaskOk(s1, s1.objs[g]) {
      TaskFrame(s, s1, s.objs[g]);
    }
  }

  lemma StepRootKeeps(p: State, c: Choice)
    requires Inv(p) && Count(p, ResumeRoot) == 0
    requires Distinct(c.cancelOrder) && (p.root.AwaitCleanups? ==> p.root.missing == {})
    ensures Inv(StepRoot(p, c))
  {
    match p.root
    case AwaitStop =>
      CancelAllKeeps(p, c.cancelOrder);
      CancelAllCount(p, c.cancelOrder, ResumeRoot);
      EnterDrainKeeps(CancelAll(p, c.cancelOrder), c);
    case Draining(waited, gen) =>
      DrainKeeps(p);
      EnterDrainKeeps(p.(table := p.table - DrainDone(p)), c);
    case AwaitCleanups(awaited, missing) =>
      RootFrame(p, StepRoot(p, c));
    case Stopped =>
  }

  lemma TurnKeeps(s: State, c: Choice)
    requires Inv(s) && s.ready != [] && ChoiceOk(s, s.ready[0], c)
    ensures Inv(TurnOf(s, c))
  {
    var p := Pop(s);
    var h := s.ready[0];
    assert Count(s, h) > 0;
    if !h.CleanupCb? {
      PopKeeps(s);
    }
    match h
    case Resume(f) =>
      ResumeIsLive(s, f);
      if s.objs[f].kind.CiTask? {
        StepTaskKeeps(s, f, c);
      } else {
        StepBodyKeeps(p, f, c);
      }
    case CleanupCb(f) => StepCleanupCbKeeps(s, f);
    case WaitCb(w, gen, f) => StepWaitCbKeeps(p, w, gen);
    case ResumeRoot => StepRootKeeps(p, c);
    case ResumeCleanup(f) => StepCleanupKeeps(p, f, c);
    case CleanupWaitCb(f) => StepCleanupWaitCbKeeps(p, f);
  }

  lemma NextKeeps(s: State, a: Action)
    requires Inv(s) && Enabled(s, a)
    ensures Inv(Next(s, a))
  {
    match a
    case Turn(c) => TurnKeeps(s, c);
    case Wake(f) => PushKeeps(s, Resume(f));
    case WakeCleanup(f) => PushKeeps(s, ResumeCleanup(f));
    case Signal => PushKeeps(s, ResumeRoot);
    case Cancel(f) => CancelAllKeeps(s, [f]);
  }

  lemma InitHolds(services: seq<Fut>)
    requires Distinct(services)
    ensures Inv(Init(services))
  {
    StartAllKeeps(State([], map[], {}, [], {}, AwaitStop, 0), Service, services);
  }

  /** Every reachable state of every run satisfies the invariant. */
  lemma {:induction false} RunKeeps(s: State, acts: seq<Action>)
    requires Inv(s) && ValidRun(s, acts)
    ensures Inv(Final(s, acts))
    decreases |acts|
  {
    if acts != [] {
      NextKeeps(s, acts[0]);
      RunKeeps(Next(s, acts[0]), acts[1..]);
    }
  }
}
