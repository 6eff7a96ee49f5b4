/**
 Consequences of the FIFO queue for shutdown: nothing starts once Root.run waits
 for the cleanups, an object that finished before the stop sweep is never lost,
 and a task's cleanup waits for its jobs.
 */
module Quiescence {
  import opened Sequences
  import opened EventLoop
  import opened Lifecycle
  import opened Shutdown

  // ------------------------------------------------- nothing starts again

  lemma Drained(s: State)
    requires Inv(s) && s.table == {}
    ensures forall f :: f in s.objs ==> IsDone(s, f)
    ensures forall f :: Resume(f) !in s.ready
  {
    forall f | f in s.objs ensures IsDone(s, f) && Count(s, Resume(f)) == 0 {
      assert EntryOk(s, f);
    }
    forall f ensures Resume(f) !in s.ready {
      assert Count(s, Resume(f)) == 0;
    }
  }

  lemma CancelNothing(s: State)
    ensures CancelAll(s, []) == s
  {
    assert CancelAll(s, []).objs == s.objs;
  }

  lemma EnumeratesNothing(order: seq<Fut>, fs: set<Fut>)
    requires Enumerates(order, fs)
    ensures order == [] <==> fs == {}
  {
    if order != [] {
      assert order[0] in order;
    }
  }

  lemma QuiescentRoot(p: State, c: Choice)
    requires p.table == {} && (p.root.AwaitStop? ==> c.cancelOrder == [])
    ensures StepRoot(p, c).table == {} && StepRoot(p, c).objs == p.objs && StepRoot(p, c).cleanups == p.cleanups
  {
    CancelNothing(p);
  }

  lemma QuiescentStep(s: State, a: Action)
    requires Inv(s) && Enabled(s, a) && s.table == {}
    ensures Next(s, a).table == {} && Next(s, a).objs == s.objs && Next(s, a).cleanups == s.cleanups
  {
    Drained(s);
    if a.Turn? {
      assert s.ready[0] in s.ready;
      if s.ready[0].ResumeRoot? {
        EnumeratesNothing(a.c.cancelOrder, if s.root.AwaitStop? then s.table else {});
        QuiescentRoot(Pop(s), a.c);
      }
    }
  }

  /** Once the table of running objects is empty, no run starts an object, resumes one or
      schedules another cleanup: the cleanups there are are final. */
  lemma {:induction false} QuiescenceIsStable(s: State, acts: seq<Action>)
    requires Inv(s) && s.table == {} && ValidRun(s, acts)
    ensures var s1 := Final(s, acts); s1.table == {} && s1.objs == s.objs && s1.cleanups == s.cleanups
    decreases |acts|
  {
    if acts != [] {
      QuiescentStep(s, acts[0]);
      NextKeeps(s, acts[0]);
      QuiescenceIsStable(Next(s, acts[0]), acts[1..]);
    }
  }

  // ------------------------------------------------- finished before the sweep

  function Base(s: State, a: Action): seq<Handle> {
    if a.Turn? && s.ready != [] then s.ready[1..] else s.ready
  }

  lemma EnterDrainGrows(s: State, c: Choice)
    ensures s.ready <= EnterDrain(s, c).ready && EnterDrain(s, c).cleanups == s.cleanups
  {
  }

  lemma TaskWaitGrows(s: State, t: Fut, second: bool, fs: set<Fut>, c: Choice)
    requires t in s.objs
    ensures s.ready <= TaskWait(s, t, second, fs, c).ready && TaskWait(s, t, second, fs, c).cleanups == s.cleanups
  {
  }

  lemma StepTaskGrows(s: State, t: Fut, c: Choice)
    requires t in s.objs
    ensures s.ready <= StepTask(s, t, c).ready && StepTask(s, t, c).cleanups == s.cleanups
  {
    var o := s.objs[t];
    if o.phase.Fresh? && !o.cancel {
      TaskWaitGrows(StartAll(s, CiJob, c.starts), t, false, Elems(c.starts), c);
    } else if o.phase.Waiting? && o.cancel && !o.phase.second {
      TaskWaitGrows(CancelAll(s, c.cancelOrder), t, true, o.phase.fs, c);
    }
  }

  lemma StepRootGrows(s: State, c: Choice)
    ensures s.ready <= StepRoot(s, c).ready && StepRoot(s, c).cleanups == s.cleanups
  {
    if s.root.AwaitStop? {
      EnterDrainGrows(CancelAll(s, c.cancelOrder), c);
    } else if s.root.Draining? {
      EnterDrainGrows(s.(table := s.table - DrainDone(s)), c);
    }
  }

  /** The queue is FIFO: a step removes at most its head and appends at the end. */
  lemma QueueGrows(s: State, a: Action)
    requires Enabled(s, a)
    ensures Base(s, a) <= Next(s, a).ready
    ensures s.cleanups <= Next(s, a).cleanups
  {
    if a.Turn? {
      match s.ready[0]
      case Resume(f) =>
        if s.objs[f].kind.CiTask? {
          StepTaskGrows(Pop(s), f, a.c);
        }
      case ResumeRoot => StepRootGrows(Pop(s), a.c);
      case CleanupCb(_) =>
      case WaitCb(_, _, _) =>
      case ResumeCleanup(_) =>
      case CleanupWaitCb(_) =>
    }
  }

  /** Scanning the queue from its head, the cleanup callback of `f` comes before
      any step of Root.run. */
  predicate Ahead(r: seq<Handle>, f: Fut) {
    r != [] && (r[0] == CleanupCb(f) || (r[0] != ResumeRoot && Ahead(r[1..], f)))
  }

  lemma AheadAppend(r: seq<Handle>, x: seq<Handle>, f: Fut)
    requires Ahead(r, f)
    ensures Ahead(r + x, f)
  {
    if r[0] != CleanupCb(f) {
      AheadAppend(r[1..], x, f);
      assert (r + x)[1..] == r[1..] + x;
    }
  }

  lemma AheadWithoutRoot(r: seq<Handle>, f: Fut)
    requires CleanupCb(f) in r && ResumeRoot !in r
    ensures Ahead(r, f)
  {
    if r[0] != CleanupCb(f) {
      AheadWithoutRoot(r[1..], f);
    }
  }

  predicate AheadOfRoot(s: State, f: Fut) {
    CleanupCb(f) in s.ready ==> Ahead(s.ready, f)
  }

  /** `f` is done, not lost, and wait_fs cannot overtake it any more. */
  predicate Safe(s: State, f: Fut) {
    f in s.objs && IsDone(s, f) && f !in Lost(s) && (s.root.AwaitStop? || AheadOfRoot(s, f))
  }

  lemma ResumeDoneStays(s: State, c: Choice, f: Fut)
    requires Inv(s) && s.ready != [] && s.ready[0].Resume? && ChoiceOk(s, s.ready[0], c) && IsDone(s, f)
    ensures IsDone(TurnOf(s, c), f)
  {
    var g := s.ready[0].f;
    ResumeIsLive(s, g);
    if s.objs[g].kind.CiTask? {
      QuietTask(Pop(s), g, c);
      assert IsDone(Pop(s), f);
    } else {
      QuietBody(Pop(s), g, c);
      assert IsDone(Pop(s), f);
    }
  }

  lemma RootDoneStays(s: State, c: Choice, f: Fut)
    requires IsDone(s, f)
    ensures IsDone(StepRoot(s, c), f)
  {
  }

  lemma DoneStays(s: State, a: Action, f: Fut)
    requires Inv(s) && Enabled(s, a) && IsDone(s, f)
    ensures IsDone(Next(s, a), f)
  {
    if a.Turn? && s.ready[0].Resume? {
      ResumeDoneStays(s, a.c, f);
    } else if a.Turn? && s.ready[0].ResumeRoot? {
      RootDoneStays(Pop(s), a.c, f);
    }
  }

  lemma LeavesStop(s: State, a: Action)
    requires Enabled(s, a) && s.root.AwaitStop? && !Next(s, a).root.AwaitStop?
    ensures a.Turn? && s.ready[0] == ResumeRoot
  {
  }

  /** The sweep leaves AwaitStop, and there is one queued step of Root.run at most. */
  lemma SweepClears(s: State, a: Action)
    requires Inv(s) && Enabled(s, a) && s.root.AwaitStop? && !Next(s, a).root.AwaitStop?
    ensures ResumeRoot !in Next(s, a).ready
  {
    LeavesStop(s, a);
    PopKeeps(s);
    CancelAllCount(Pop(s), a.c.cancelOrder, ResumeRoot);
    EnterDrainQueuesNoRoot(CancelAll(Pop(s), a.c.cancelOrder), a.c);
  }

  lemma EnterDrainQueuesNoRoot(s: State, c: Choice)
    requires Count(s, ResumeRoot) == 0
    ensures ResumeRoot !in EnterDrain(s, c).ready
  {
    CleanupCbsAreDone(s, c.waitOrder, ResumeRoot);
    RegisterCount(s.(root := Draining(s.table, s.gen)), RootWaiter, c.waitOrder, ResumeRoot);
    assert s.table != {} ==> Count(EnterDrain(s, c), ResumeRoot) == 0;
  }

  lemma NotOvertaken(s: State, a: Action, f: Fut)
    requires Enabled(s, a) && AheadOfRoot(s, f)
    ensures f !in Overtaken(s, a)
  {
  }

  lemma SafeStep(s: State, a: Action, f: Fut)
    requires Inv(s) && Enabled(s, a) && Safe(s, f)
    ensures Safe(Next(s, a), f)
  {
    var s1 := Next(s, a);
    NextKeeps(s, a);
    LostStep(s, a);
    DoneStays(s, a, f);
    if !s.root.AwaitStop? {
      NotOvertaken(s, a, f);
    }
    if !s1.root.AwaitStop? {
      if s.root.AwaitStop? {
        SweepClears(s, a);
        if CleanupCb(f) in s1.ready {
          AheadWithoutRoot(s1.ready, f);
        }
      } else {
        AheadStep(s, a, f);
      }
    }
  }

  lemma AheadQueue(base: seq<Handle>, ready: seq<Handle>, f: Fut)
    requires base <= ready && Ahead(base, f)
    ensures Ahead(ready, f)
  {
    assert ready == base + ready[|base|..];
    AheadAppend(base, ready[|base|..], f);
  }

  lemma CleanedIsNotQueued(s: State, f: Fut)
    requires Inv(s) && f in s.objs && f in s.cleanups
    ensures CleanupCb(f) !in s.ready
  {
    assert EntryOk(s, f);
    assert Count(s, CleanupCb(f)) == 0;
  }

  lemma DoneIsQueued(s: State, f: Fut)
    requires Inv(s) && IsDone(s, f) && f !in Lost(s) && f !in s.cleanups
    ensures f in s.table && CleanupCb(f) in s.ready
  {
    assert EntryOk(s, f);
    assert Count(s, CleanupCb(f)) == 1;
  }

  lemma AheadStep(s: State, a: Action, f: Fut)
    requires Inv(s) && Enabled(s, a) && IsDone(s, f) && f !in Lost(s) && AheadOfRoot(s, f)
    requires Inv(Next(s, a)) && f in Next(s, a).objs
    ensures AheadOfRoot(Next(s, a), f)
  {
    QueueGrows(s, a);
    if f in Next(s, a).cleanups {
      CleanedIsNotQueued(Next(s, a), f);
    } else {
      DoneIsQueued(s, f);
      CallbackStaysQueued(s, a, f);
      AheadQueue(Base(s, a), Next(s, a).ready, f);
    }
  }

  lemma CallbackStaysQueued(s: State, a: Action, f: Fut)
    requires Enabled(s, a) && f in s.table
    requires f !in Next(s, a).cleanups
    ensures Ahead(s.ready, f) ==> Ahead(Base(s, a), f)
  {
    if a.Turn? {
      assert s.ready[0] != CleanupCb(f);
    }
  }

  lemma {:induction false} SafeRun(s: State, acts: seq<Action>, f: Fut)
    requires Inv(s) && ValidRun(s, acts) && Safe(s, f)
    ensures Safe(Final(s, acts), f)
    decreases |acts|
  {
    if acts != [] {
      SafeStep(s, acts[0], f);
      NextKeeps(s, acts[0]);
      SafeRun(Next(s, acts[0]), acts[1..], f);
    }
  }

  /** An object that finishes before the stop sweep keeps its cleanup in every
      continuation of the run, whatever the order of callbacks; when the loop
      stops, that cleanup has finished. */
  lemma FinishedBeforeStop(services: seq<Fut>, before: seq<Action>, after: seq<Action>, f: Fut)
    requires Distinct(services) && ValidRun(Init(services), before)
    requires var m := Final(Init(services), before);
             m.root.AwaitStop? && IsDone(m, f) && ValidRun(m, after)
    ensures var s := Final(Final(Init(services), before), after);
            Accounted(s, f) && (s.root.Stopped? ==> f in s.cleaned)
  {
    var s0 := Init(services);
    var m := Final(s0, before);
    InitHolds(services);
    RunKeeps(s0, before);
    assert Lost(m) == {} by {
      NothingLostBeforeStop(s0, before);
    }
    SafeRun(m, after, f);
    RunKeeps(m, after);
    SafeIsCleaned(Final(m, after), f);
  }

  lemma SafeIsCleaned(s: State, f: Fut)
    requires Inv(s) && Safe(s, f)
    ensures Accounted(s, f) && (s.root.Stopped? ==> f in s.cleaned)
  {
    assert EntryOk(s, f);
    assert f in s.cleanups ==> f in Elems(s.cleanups);
  }

  lemma LeftStop(s: State, a: Action)
    requires Enabled(s, a) && !s.root.AwaitStop?
    ensures !Next(s, a).root.AwaitStop?
  {
  }

  lemma {:induction false} LeftStopRun(s: State, acts: seq<Action>)
    requires ValidRun(s, acts) && Final(s, acts).root.AwaitStop?
    ensures s.root.AwaitStop?
    decreases |acts|
  {
    if acts != [] {
      LeftStopRun(Next(s, acts[0]), acts[1..]);
      if !s.root.AwaitStop? {
        LeftStop(s, acts[0]);
      }
    }
  }

  lemma {:induction false} NothingLostBeforeStop(s: State, acts: seq<Action>)
    requires Inv(s) && ValidRun(s, acts) && Final(s, acts).root.AwaitStop?
    ensures Lost(Final(s, acts)) == Lost(s)
    decreases |acts|
  {
    LeftStopRun(s, acts);
    if acts != [] {
      LostStep(s, acts[0]);
      NextKeeps(s, acts[0]);
      NothingLostBeforeStop(Next(s, acts[0]), acts[1..]);
    }
  }
}
