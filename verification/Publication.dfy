/**
 When the cleanup of a task, and so the publication of its results, may begin
 (rallyci/task.py: Task.run, Task.cleanup).
 */
module Publication {
  import opened Sequences
  import opened EventLoop
  import opened Lifecycle
  import opened LostTask

  /** Wherever a single cancellation lands, a finished task has only finished jobs. */
  lemma JobsDoneBeforeCleanup(services: seq<Fut>, acts: seq<Action>, t: Fut)
    requires Distinct(services) && ValidRun(Init(services), acts)
    ensures var s := Final(Init(services), acts);
            (t in s.cleanups ==> IsDone(s, t)) &&
            (IsDone(s, t) && s.objs[t].kind.CiTask? && s.objs[t].cancels <= 1 ==> AllDone(s, s.objs[t].started))
  {
    InitHolds(services);
    RunKeeps(Init(services), acts);
    var s := Final(Init(services), acts);
    if t in s.objs {
      assert EntryOk(s, t) && TaskOk(s, s.objs[t]);
    }
  }

  // ------------------------------------------------- every job has its task

  /** The first turn of a task starts its jobs and waits for all of them. */
  lemma TaskWaitsForAll(s: State, c: Choice, t: Fut)
    requires Inv(s) && s.ready != [] && s.ready[0] == Resume(t) && ChoiceOk(s, Resume(t), c)
    requires s.objs[t].kind.CiTask? && s.objs[t].phase.Fresh? && !s.objs[t].cancel && c.starts != []
    ensures var s1 := TurnOf(s, c);
            && s1.objs.Keys == s.objs.Keys + Elems(c.starts)
            && (forall f :: f in c.starts ==> s1.objs[f].kind.CiJob?)
            && s1.objs[t].started == Elems(c.starts)
            && s1.objs[t].phase == Waiting(false, Elems(c.starts), s.gen)
  {
    assert TaskOk(s, s.objs[t]);
    FreshJobs(Pop(s), t, c);
  }

  lemma FreshJobs(p: State, t: Fut, c: Choice)
    requires t in p.objs && p.objs[t].phase.Fresh? && !p.objs[t].cancel && p.objs[t].started == {} && c.starts != []
    requires forall f :: f in c.starts ==> f !in p.objs
    ensures var s1 := StepTask(p, t, c);
            && s1.objs.Keys == p.objs.Keys + Elems(c.starts)
            && (forall f :: f in c.starts ==> s1.objs[f].kind.CiJob?)
            && s1.objs[t].started == Elems(c.starts)
            && s1.objs[t].phase == Waiting(false, Elems(c.starts), p.gen)
  {
    var fs := Elems(c.starts);
    assert c.starts[0] in fs;
    StartJobs(p, CiJob, c.starts);
    var s0 := StartAll(p, CiJob, c.starts);
    TaskWaitJobs(s0, t, false, fs, c);
    assert StepTask(p, t, c) == TaskWait(s0, t, false, fs, c);
  }

  ghost predicate Owned(s: State) {
    forall f :: f in s.objs && s.objs[f].kind.CiJob? ==>
      exists t :: t in s.objs && s.objs[t].kind.CiTask? && f in s.objs[t].started
  }

  /** Objects keep their kind, tasks the jobs they have started, and new jobs are some task's. */
  ghost predicate Owners(s: State, s1: State) {
    && (forall g :: g in s.objs ==>
          g in s1.objs && s1.objs[g].kind == s.objs[g].kind && s.objs[g].started <= s1.objs[g].started)
    && (forall f :: f in s1.objs && f !in s.objs && s1.objs[f].kind.CiJob? ==>
          exists t :: t in s1.objs && s1.objs[t].kind.CiTask? && f in s1.objs[t].started)
  }

  lemma OwnersKeep(s: State, s1: State)
    requires Owned(s) && Owners(s, s1)
    ensures Owned(s1)
  {
    forall f | f in s1.objs && s1.objs[f].kind.CiJob?
      ensures exists t :: t in s1.objs && s1.objs[t].kind.CiTask? && f in s1.objs[t].started
    {
      if f in s.objs {
        var t :| t in s.objs && s.objs[t].kind.CiTask? && f in s.objs[t].started;
        assert t in s1.objs && f in s1.objs[t].started;
      }
    }
  }

  lemma TaskWaitOwners(s: State, t: Fut, second: bool, fs: set<Fut>, c: Choice)
    requires t in s.objs
    ensures Owners(s, TaskWait(s, t, second, fs, c))
  {
  }

  lemma StepTaskOwners(p: State, t: Fut, c: Choice)
    requires t in p.objs && p.objs[t].kind.CiTask? && forall f :: f in c.starts ==> f !in p.objs
    ensures Owners(p, StepTask(p, t, c))
  {
    var o := p.objs[t];
    if o.phase.Fresh? && !o.cancel {
      FreshOwners(p, t, c);
    } else if o.phase.Waiting? && o.cancel && !o.phase.second {
      TaskWaitOwners(CancelAll(p, c.cancelOrder), t, true, o.phase.fs, c);
    } else if o.phase.Waiting? && !o.cancel {
      TaskWaitOwners(p, t, o.phase.second, Undone(p, o.phase.fs), c);
    }
  }

  /** Of a wait, only what concerns the jobs. */
  lemma TaskWaitJobs(s: State, t: Fut, second: bool, fs: set<Fut>, c: Choice)
    requires t in s.objs && fs != {}
    ensures var s1 := TaskWait(s, t, second, fs, c);
            && s1.objs.Keys == s.objs.Keys && s1.objs[t].started == s.objs[t].started + fs
            && s1.objs[t].phase == Waiting(second, fs, s.gen)
            && forall g :: g in s.objs ==>
                 s1.objs[g].kind == s.objs[g].kind && (g != t ==> s1.objs[g].started == s.objs[g].started)
  {
  }

  lemma StartJobs(s: State, kind: Kind, fs: seq<Fut>)
    requires forall f :: f in fs ==> f !in s.objs
    ensures var s1 := StartAll(s, kind, fs);
            && s1.objs.Keys == s.objs.Keys + Elems(fs) && (forall g :: g in s.objs ==> s1.objs[g] == s.objs[g])
            && forall f :: f in fs ==> s1.objs[f].kind == kind
  {
  }

  lemma FreshOwners(p: State, t: Fut, c: Choice)
    requires t in p.objs && p.objs[t].kind.CiTask? && p.objs[t].phase.Fresh? && !p.objs[t].cancel
    requires forall f :: f in c.starts ==> f !in p.objs
    ensures Owners(p, StepTask(p, t, c))
  {
    if c.starts == [] {
      assert Elems(c.starts) == {};
      StartJobs(p, CiJob, []);
      TaskWaitOwners(StartAll(p, CiJob, []), t, false, {}, c);
    } else {
      var s0 := StartAll(p, CiJob, c.starts);
      StartJobs(p, CiJob, c.starts);
      assert c.starts[0] in Elems(c.starts);
      TaskWaitJobs(s0, t, false, Elems(c.starts), c);
      NewJobsOwned(p, s0, StepTask(p, t, c), t, Elems(c.starts));
    }
  }

  lemma NewJobsOwned(p: State, s0: State, s1: State, t: Fut, fs: set<Fut>)
    requires t in p.objs && p.objs[t].kind.CiTask?
    requires s0.objs.Keys == p.objs.Keys + fs && forall g :: g in p.objs ==> s0.objs[g] == p.objs[g]
    requires s1.objs.Keys == s0.objs.Keys && s1.objs[t].started == s0.objs[t].started + fs
    requires forall g :: g in s0.objs ==>
               s1.objs[g].kind == s0.objs[g].kind && (g != t ==> s1.objs[g].started == s0.objs[g].started)
    ensures Owners(p, s1)
  {
    forall f | f in s1.objs && f !in p.objs && s1.objs[f].kind.CiJob?
      ensures exists g :: g in s1.objs && s1.objs[g].kind.CiTask? && f in s1.objs[g].started
    {
      assert f in s1.objs[t].started;
    }
  }

  lemma BodyOwners(p: State, f: Fut, c: Choice)
    requires f in p.objs && forall g :: g in c.starts ==> g !in p.objs
    ensures Owners(p, StepBody(p, f, c))
  {
  }

  lemma ResumeOwners(s: State, f: Fut, c: Choice)
    requires s.ready != [] && s.ready[0] == Resume(f) && ChoiceOk(s, Resume(f), c)
    ensures Owners(s, TurnOf(s, c))
  {
    if s.objs[f].kind.CiTask? {
      StepTaskOwners(Pop(s), f, c);
    } else {
      BodyOwners(Pop(s), f, c);
    }
  }

  /** The same objects, with the same jobs. */
  ghost predicate SameJobs(s: State, s1: State) {
    && s1.objs.Keys == s.objs.Keys
    && forall g :: g in s.objs ==> s1.objs[g].kind == s.objs[g].kind && s1.objs[g].started == s.objs[g].started
  }

  lemma CancelSameJobs(s: State, order: seq<Fut>)
    ensures SameJobs(s, CancelAll(s, order))
  {
  }

  lemma DrainSameJobs(s: State, c: Choice)
    ensures SameJobs(s, EnterDrain(s, c))
  {
  }

  lemma RootOwners(p: State, c: Choice)
    ensures Owners(p, StepRoot(p, c))
  {
    if p.root.AwaitStop? {
      CancelSameJobs(p, c.cancelOrder);
      DrainSameJobs(CancelAll(p, c.cancelOrder), c);
    } else if p.root.Draining? {
      DrainSameJobs(p.(table := p.table - DrainDone(p)), c);
    }
    assert SameJobs(p, StepRoot(p, c));
  }

  lemma OtherOwners(s: State, a: Action)
    requires Enabled(s, a) && (a.Turn? ==> !s.ready[0].Resume? && !s.ready[0].ResumeRoot?)
    ensures Owners(s, Next(s, a))
  {
  }

  lemma OwnedStep(s: State, a: Action)
    requires Owned(s) && Enabled(s, a)
    ensures Owned(Next(s, a))
  {
    if a.Turn? && s.ready[0].Resume? {
      ResumeOwners(s, s.ready[0].f, a.c);
    } else if a.Turn? && s.ready[0].ResumeRoot? {
      RootOwners(Pop(s), a.c);
    } else {
      OtherOwners(s, a);
    }
    OwnersKeep(s, Next(s, a));
  }

  lemma {:induction false} OwnedRun(s: State, acts: seq<Action>)
    requires Owned(s) && ValidRun(s, acts)
    ensures Owned(Final(s, acts))
    decreases |acts|
  {
    if acts != [] {
      OwnedStep(s, acts[0]);
      OwnedRun(Next(s, acts[0]), acts[1..]);
    }
  }

  /** In every run each job is among the started jobs of some task, so that what is said about a task's
      jobs is said about all jobs. */
  lemma EveryJobHasTask(services: seq<Fut>, acts: seq<Action>, f: Fut) returns (t: Fut)
    requires ValidRun(Init(services), acts)
    requires var s := Final(Init(services), acts); f in s.objs && s.objs[f].kind.CiJob?
    ensures var s := Final(Init(services), acts); t in s.objs && s.objs[t].kind.CiTask? && f in s.objs[t].started
  {
    OwnedRun(Init(services), acts);
    var s := Final(Init(services), acts);
    t :| t in s.objs && s.objs[t].kind.CiTask? && f in s.objs[t].started;
  }

  // ------------------------------------------------- only Root.run cancels tasks

  /** No cancellation of a task comes from outside the daemon's own code. */
  predicate OnlyRootCancels(s: State, acts: seq<Action>)
    requires ValidRun(s, acts)
    decreases |acts|
  {
    acts == [] ||
    (&& (acts[0].Cancel? ==> !s.objs[acts[0].f].kind.CiTask?)
     && OnlyRootCancels(Next(s, acts[0]), acts[1..]))
  }

  /** Root.run sweeps once, so a task is cancelled at most once. */
  predicate SweptOnce(s: State) {
    forall t :: t in s.objs && s.objs[t].kind.CiTask? ==> s.objs[t].cancels <= if s.root.AwaitStop? then 0 else 1
  }

  /** No task gains a cancellation. */
  ghost predicate NoneGained(s: State, s1: State) {
    && s1.root == s.root
    && (forall t :: t in s1.objs && s1.objs[t].kind.CiTask? ==>
          if t in s.objs then s1.objs[t].cancels <= s.objs[t].cancels && s.objs[t].kind.CiTask?
          else s1.objs[t].cancels == 0)
  }

  lemma NoneGainedKeeps(s: State, s1: State)
    requires SweptOnce(s) && NoneGained(s, s1)
    ensures SweptOnce(s1)
  {
  }

  lemma TaskWaitGainsNone(s: State, t: Fut, second: bool, fs: set<Fut>, c: Choice)
    requires t in s.objs
    ensures NoneGained(s, TaskWait(s, t, second, fs, c))
  {
  }

  lemma StepTaskGainsNone(s: State, t: Fut, c: Choice)
    requires Inv(s) && t in s.objs
    requires forall f :: f in c.starts ==> f !in s.objs
    requires s.objs[t].phase.Waiting? && s.objs[t].cancel && !s.objs[t].phase.second ==>
             forall f :: f in c.cancelOrder ==> f in s.objs[t].phase.fs
    ensures NoneGained(s, StepTask(s, t, c))
  {
    var o := s.objs[t];
    assert TaskOk(s, o);
    if o.phase.Fresh? && !o.cancel {
      TaskWaitGainsNone(StartAll(s, CiJob, c.starts), t, false, Elems(c.starts), c);
    } else if o.phase.Waiting? && o.cancel && !o.phase.second {
      assert NoneGained(s, CancelAll(s, c.cancelOrder));
      TaskWaitGainsNone(CancelAll(s, c.cancelOrder), t, true, o.phase.fs, c);
    } else if o.phase.Waiting? && !o.cancel {
      TaskWaitGainsNone(s, t, o.phase.second, Undone(s, o.phase.fs), c);
    }
  }

  lemma StepBodyGainsNone(s: State, f: Fut, c: Choice)
    requires f in s.objs && forall g :: g in c.starts ==> g !in s.objs
    ensures NoneGained(s, StepBody(s, f, c))
  {
  }

  lemma RootKeepsOnce(s: State, c: Choice)
    requires SweptOnce(s) && Distinct(c.cancelOrder)
    ensures SweptOnce(StepRoot(s, c))
  {
  }

  lemma ResumeKeepsOnce(s: State, f: Fut, c: Choice)
    requires Inv(s) && SweptOnce(s) && s.ready != [] && s.ready[0] == Resume(f) && ChoiceOk(s, Resume(f), c)
    ensures SweptOnce(TurnOf(s, c))
  {
    PopKeeps(s);
    if s.objs[f].kind.CiTask? {
      StepTaskGainsNone(Pop(s), f, c);
      NoneGainedKeeps(Pop(s), StepTask(Pop(s), f, c));
    } else {
      StepBodyGainsNone(Pop(s), f, c);
      NoneGainedKeeps(Pop(s), StepBody(Pop(s), f, c));
    }
  }

  lemma OtherKeepsOnce(s: State, a: Action)
    requires SweptOnce(s) && Enabled(s, a)
    requires a.Turn? ==> !s.ready[0].Resume? && !s.ready[0].ResumeRoot?
    requires a.Cancel? ==> !s.objs[a.f].kind.CiTask?
    ensures SweptOnce(Next(s, a))
  {
  }

  lemma NextKeepsOnce(s: State, a: Action)
    requires Inv(s) && SweptOnce(s) && Enabled(s, a)
    requires a.Cancel? ==> !s.objs[a.f].kind.CiTask?
    ensures SweptOnce(Next(s, a))
  {
    if a.Turn? && s.ready[0].Resume? {
      ResumeKeepsOnce(s, s.ready[0].f, a.c);
    } else if a.Turn? && s.ready[0].ResumeRoot? {
      RootKeepsOnce(Pop(s), a.c);
    } else {
      OtherKeepsOnce(s, a);
    }
  }

  lemma {:induction false} OnceRun(s: State, acts: seq<Action>)
    requires Inv(s) && SweptOnce(s) && ValidRun(s, acts) && OnlyRootCancels(s, acts)
    ensures SweptOnce(Final(s, acts))
    decreases |acts|
  {
    if acts != [] {
      NextKeepsOnce(s, acts[0]);
      NextKeeps(s, acts[0]);
      OnceRun(Next(s, acts[0]), acts[1..]);
    }
  }

  /** In every run of the daemon, shutdown included, the cleanup of a task is
      scheduled only after every job it started is done. */
  lemma PublicationAfterJobs(services: seq<Fut>, acts: seq<Action>, t: Fut)
    requires Distinct(services) && ValidRun(Init(services), acts) && OnlyRootCancels(Init(services), acts)
    ensures var s := Final(Init(services), acts);
            t in s.cleanups ==> IsDone(s, t) && AllDone(s, s.objs[t].started)
  {
    JobsDoneBeforeCleanup(services, acts, t);
    InitHolds(services);
    RunKeeps(Init(services), acts);
    OnceRun(Init(services), acts);
    var s := Final(Init(services), acts);
    if t in s.objs {
      assert EntryOk(s, t) && TaskOk(s, s.objs[t]);
    }
  }

  // ------------------------------------------------- two cancellations are too many

  function TwiceState(k: nat): State {
    match k
    case 0 => LostState(2)
    case 1 => State([Resume(2), Resume(1)],
        map[0 := LostState(2).objs[0], 1 := Obj(CiTask, Waiting(false, {2}, 0), true, 1, {2}, [CleanupCb(1)]),
        2 := Obj(CiJob, Fresh, false, 0, {}, [CleanupCb(2), WaitCb(TaskWaiter(1), 0, 2)])], {0, 1, 2}, [], {},
        AwaitStop, 1)
    case 2 => State([Resume(1)],
        map[0 := LostState(2).objs[0], 1 := Obj(CiTask, Waiting(false, {2}, 0), true, 1, {2}, [CleanupCb(1)]),
        2 := Obj(CiJob, Active, false, 0, {}, [CleanupCb(2), WaitCb(TaskWaiter(1), 0, 2)])], {0, 1, 2}, [], {},
        AwaitStop, 1)
    case 3 => State([Resume(2)],
        map[0 := LostState(2).objs[0], 1 := Obj(CiTask, Waiting(true, {2}, 1), false, 1, {2}, [CleanupCb(1)]),
        2 := Obj(CiJob, Active, true, 1, {},
        [CleanupCb(2), WaitCb(TaskWaiter(1), 0, 2), WaitCb(TaskWaiter(1), 1, 2)])], {0, 1, 2}, [], {}, AwaitStop, 2)
    case 4 => State([Resume(2), Resume(1)],
        map[0 := LostState(2).objs[0], 1 := Obj(CiTask, Waiting(true, {2}, 1), true, 2, {2}, [CleanupCb(1)]),
        2 := Obj(CiJob, Active, true, 1, {},
        [CleanupCb(2), WaitCb(TaskWaiter(1), 0, 2), WaitCb(TaskWaiter(1), 1, 2)])], {0, 1, 2}, [], {}, AwaitStop, 2)
    case 5 => State([Resume(1)],
        map[0 := LostState(2).objs[0], 1 := Obj(CiTask, Waiting(true, {2}, 1), true, 2, {2}, [CleanupCb(1)]),
        2 := Obj(CiJob, Active, false, 1, {},
        [CleanupCb(2), WaitCb(TaskWaiter(1), 0, 2), WaitCb(TaskWaiter(1), 1, 2)])], {0, 1, 2}, [], {}, AwaitStop, 2)
    case _ => State([CleanupCb(1)],
        map[0 := LostState(2).objs[0], 1 := Obj(CiTask, Done, false, 2, {2}, []),
        2 := Obj(CiJob, Active, false, 1, {},
        [CleanupCb(2), WaitCb(TaskWaiter(1), 0, 2), WaitCb(TaskWaiter(1), 1, 2)])], {0, 1, 2}, [], {}, AwaitStop, 2)
  }

  function TwiceAction(k: nat): Action {
    match k
    case 0 => Cancel(1)
    case 1 => Turn(Choice([], false, [], []))
    case 2 => Turn(Choice([], false, [2], [2]))
    case 3 => Cancel(1)
    case 4 => Turn(Choice([], false, [], []))
    case _ => Turn(Choice([], false, [], []))
  }

  predicate TwiceStepOk(k: nat) {
    Enabled(TwiceState(k), TwiceAction(k)) && Next(TwiceState(k), TwiceAction(k)) == TwiceState(k + 1)
  }

  lemma Twice0()
    ensures TwiceStepOk(0)
  {
    assert CancelWakes(TwiceState(0), [1]) == [Resume(1)];
    assert CancelAll(TwiceState(0), [1]).objs == TwiceState(1).objs;
  }

  lemma Twice1()
    ensures TwiceStepOk(1)
  {
    assert StepBody(Pop(TwiceState(1)), 2, TwiceAction(1).c).objs == TwiceState(2).objs;
  }

  /** The cancelled task cancels its job ... */
  function JobCancelled(): State {
    TwiceState(2).(ready := [Resume(2)],
                   objs := map[0 := TwiceState(2).objs[0], 1 := TwiceState(2).objs[1],
                               2 := TwiceState(2).objs[2].(cancel := true, cancels := 1)])
  }

  lemma Twice2Cancel()
    ensures CancelAll(Pop(TwiceState(2)), [2]) == JobCancelled()
  {
    var p := Pop(TwiceState(2));
    assert CancelWakes(p, [2]) == [Resume(2)];
    assert CancelAll(p, [2]).objs == JobCancelled().objs;
  }

  /** ... and waits for it again. */
  lemma Twice2Wait()
    ensures TaskWait(JobCancelled(), 1, true, {2}, TwiceAction(2).c) == TwiceState(3)
  {
    var p := JobCancelled();
    assert {2} + {2} == {2};
    var s := SetObj(p, 1, p.objs[1].(phase := Waiting(true, {2}, 1), cancel := false));
    assert WaitCbs(s, TaskWaiter(1), [2]) == [];
    assert p.objs[2].callbacks + [WaitCb(TaskWaiter(1), 1, 2)] == TwiceState(3).objs[2].callbacks;
    assert Register(s, TaskWaiter(1), [2]).objs == TwiceState(3).objs;
  }

  lemma Twice2()
    ensures TwiceStepOk(2)
  {
    assert Enumerates([2], {2});
    Twice2Cancel();
    Twice2Wait();
  }

  lemma Twice3()
    ensures TwiceStepOk(3)
  {
    assert CancelWakes(TwiceState(3), [1]) == [Resume(1)];
    assert CancelAll(TwiceState(3), [1]).objs == TwiceState(4).objs;
  }

  lemma Twice4()
    ensures TwiceStepOk(4)
  {
    assert StepBody(Pop(TwiceState(4)), 2, TwiceAction(4).c).objs == TwiceState(5).objs;
  }

  lemma Twice5()
    ensures TwiceStepOk(5)
  {
    assert StepTask(Pop(TwiceState(5)), 1, TwiceAction(5).c).objs == TwiceState(6).objs;
  }

  lemma {:induction false} TwiceReach(k: nat) returns (acts: seq<Action>)
    requires k <= 6
    ensures ValidRun(Init([0]), acts) && Final(Init([0]), acts) == TwiceState(k)
  {
    if k == 0 {
      acts := LostReach(2);
    } else {
      acts := TwiceReach(k - 1);
      match k - 1 {
        case 0 => Twice0();
        case 1 => Twice1();
        case 2 => Twice2();
        case 3 => Twice3();
        case 4 => Twice4();
        case _ => Twice5();
      }
      Extend(Init([0]), acts, TwiceAction(k - 1));
      acts := acts + [TwiceAction(k - 1)];
    }
  }

  /** The bound on cancellations is needed: cancelled a second time, in its second
      wait, a task finishes and queues its cleanup while its job is still running. */
  lemma SecondCancelLeavesJob() returns (acts: seq<Action>)
    ensures ValidRun(Init([0]), acts)
    ensures var s := Final(Init([0]), acts);
            && IsDone(s, 1) && s.objs[1].cancels == 2 && CleanupCb(1) in s.ready
            && 2 in s.objs[1].started && !IsDone(s, 2)
  {
    acts := TwiceReach(6);
  }
}
