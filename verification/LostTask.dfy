/**
 A concrete run of the event loop that loses a cleanup.

 In the run of this module every object finishes in the step that delivers its cancellation,
 and yet a task is lost: its job ended just before SIGINT, so at the sweep the
 task had its next step queued, and wait_fs of Root.run overtakes its cleanup.
 */
module LostTask {
  import opened EventLoop
  import opened Lifecycle
  import opened Shutdown

  function At0(): State {
    State([Resume(0)], map[0 := Obj(Service, Fresh, false, 0, {}, [CleanupCb(0)])], {0}, [], {}, AwaitStop, 0)
  }

  function At1(): State {
    State([Resume(1)],
        map[0 := Obj(Service, Active, false, 0, {}, [CleanupCb(0)]),
        1 := Obj(CiTask, Fresh, false, 0, {}, [CleanupCb(1)])], {0, 1}, [], {}, AwaitStop, 0)
  }

  function At2(): State {
    State([Resume(2)],
        map[0 := Obj(Service, Active, false, 0, {}, [CleanupCb(0)]),
        1 := Obj(CiTask, Waiting(false, {2}, 0), false, 0, {2}, [CleanupCb(1)]),
        2 := Obj(CiJob, Fresh, false, 0, {}, [CleanupCb(2), WaitCb(TaskWaiter(1), 0, 2)])], {0, 1, 2}, [], {},
        AwaitStop, 1)
  }

  function At3(): State {
    State([CleanupCb(2), WaitCb(TaskWaiter(1), 0, 2)],
        map[0 := Obj(Service, Active, false, 0, {}, [CleanupCb(0)]),
        1 := Obj(CiTask, Waiting(false, {2}, 0), false, 0, {2}, [CleanupCb(1)]),
        2 := Obj(CiJob, Done, false, 0, {}, [])], {0, 1, 2}, [], {}, AwaitStop, 1)
  }

  function At4(): State {
    State([WaitCb(TaskWaiter(1), 0, 2), ResumeCleanup(2)],
        map[0 := Obj(Service, Active, false, 0, {}, [CleanupCb(0)]),
        1 := Obj(CiTask, Waiting(false, {2}, 0), false, 0, {2}, [CleanupCb(1)]),
        2 := Obj(CiJob, Done, false, 0, {}, [])], {0, 1}, [2], {}, AwaitStop, 1)
  }

  function At5(): State {
    State([WaitCb(TaskWaiter(1), 0, 2), ResumeCleanup(2), ResumeRoot],
        map[0 := Obj(Service, Active, false, 0, {}, [CleanupCb(0)]),
        1 := Obj(CiTask, Waiting(false, {2}, 0), false, 0, {2}, [CleanupCb(1)]),
        2 := Obj(CiJob, Done, false, 0, {}, [])], {0, 1}, [2], {}, AwaitStop, 1)
  }

  function At6(): State {
    State([ResumeCleanup(2), ResumeRoot, Resume(1)],
        map[0 := Obj(Service, Active, false, 0, {}, [CleanupCb(0)]),
        1 := Obj(CiTask, Waiting(false, {2}, 0), false, 0, {2}, [CleanupCb(1)]),
        2 := Obj(CiJob, Done, false, 0, {}, [])], {0, 1}, [2], {}, AwaitStop, 1)
  }

  function At7(): State {
    State([ResumeRoot, Resume(1)],
        map[0 := Obj(Service, Active, false, 0, {}, [CleanupCb(0)]),
        1 := Obj(CiTask, Waiting(false, {2}, 0), false, 0, {2}, [CleanupCb(1)]),
        2 := Obj(CiJob, Done, false, 0, {}, [])], {0, 1}, [2], {2}, AwaitStop, 1)
  }

  function At8(): State {
    State([Resume(1), Resume(0)],
        map[0 := Obj(Service, Active, true, 1, {}, [CleanupCb(0), WaitCb(RootWaiter, 1, 0)]),
        1 := Obj(CiTask, Waiting(false, {2}, 0), true, 1, {2}, [CleanupCb(1), WaitCb(RootWaiter, 1, 1)]),
        2 := Obj(CiJob, Done, false, 0, {}, [])], {0, 1}, [2], {2}, Draining({0, 1}, 1), 2)
  }

  function At9(): State {
    State([Resume(0), WaitCb(TaskWaiter(1), 2, 2)],
        map[0 := Obj(Service, Active, true, 1, {}, [CleanupCb(0), WaitCb(RootWaiter, 1, 0)]),
        1 := Obj(CiTask, Waiting(true, {2}, 2), false, 1, {2}, [CleanupCb(1), WaitCb(RootWaiter, 1, 1)]),
        2 := Obj(CiJob, Done, false, 0, {}, [])], {0, 1}, [2], {2}, Draining({0, 1}, 1), 3)
  }

  function At10(): State {
    State([WaitCb(TaskWaiter(1), 2, 2), CleanupCb(0), WaitCb(RootWaiter, 1, 0)],
        map[0 := Obj(Service, Done, false, 1, {}, []),
        1 := Obj(CiTask, Waiting(true, {2}, 2), false, 1, {2}, [CleanupCb(1), WaitCb(RootWaiter, 1, 1)]),
        2 := Obj(CiJob, Done, false, 0, {}, [])], {0, 1}, [2], {2}, Draining({0, 1}, 1), 3)
  }

  function At11(): State {
    State([CleanupCb(0), WaitCb(RootWaiter, 1, 0), Resume(1)],
        map[0 := Obj(Service, Done, false, 1, {}, []),
        1 := Obj(CiTask, Waiting(true, {2}, 2), false, 1, {2}, [CleanupCb(1), WaitCb(RootWaiter, 1, 1)]),
        2 := Obj(CiJob, Done, false, 0, {}, [])], {0, 1}, [2], {2}, Draining({0, 1}, 1), 3)
  }

  function At12(): State {
    State([WaitCb(RootWaiter, 1, 0), Resume(1), ResumeCleanup(0)],
        map[0 := Obj(Service, Done, false, 1, {}, []),
        1 := Obj(CiTask, Waiting(true, {2}, 2), false, 1, {2}, [CleanupCb(1), WaitCb(RootWaiter, 1, 1)]),
        2 := Obj(CiJob, Done, false, 0, {}, [])], {1}, [2, 0], {2}, Draining({0, 1}, 1), 3)
  }

  function At13(): State {
    State([Resume(1), ResumeCleanup(0), ResumeRoot],
        map[0 := Obj(Service, Done, false, 1, {}, []),
        1 := Obj(CiTask, Waiting(true, {2}, 2), false, 1, {2}, [CleanupCb(1), WaitCb(RootWaiter, 1, 1)]),
        2 := Obj(CiJob, Done, false, 0, {}, [])], {1}, [2, 0], {2}, Draining({0, 1}, 1), 3)
  }

  function At14(): State {
    State([ResumeCleanup(0), ResumeRoot, CleanupCb(1), WaitCb(RootWaiter, 1, 1)],
        map[0 := Obj(Service, Done, false, 1, {}, []), 1 := Obj(CiTask, Done, false, 1, {2}, []),
        2 := Obj(CiJob, Done, false, 0, {}, [])], {1}, [2, 0], {2}, Draining({0, 1}, 1), 3)
  }

  function At15(): State {
    State([ResumeRoot, CleanupCb(1), WaitCb(RootWaiter, 1, 1)],
        map[0 := Obj(Service, Done, false, 1, {}, []), 1 := Obj(CiTask, Done, false, 1, {2}, []),
        2 := Obj(CiJob, Done, false, 0, {}, [])], {1}, [2, 0], {2, 0}, Draining({0, 1}, 1), 3)
  }

  function At16(): State {
    State([CleanupCb(1), WaitCb(RootWaiter, 1, 1), CleanupWaitCb(2), CleanupWaitCb(0)],
        map[0 := Obj(Service, Done, false, 1, {}, []), 1 := Obj(CiTask, Done, false, 1, {2}, []),
        2 := Obj(CiJob, Done, false, 0, {}, [])], {}, [2, 0], {2, 0}, AwaitCleanups({2, 0}, {2, 0}), 3)
  }

  function LostState(k: nat): State {
    match k
    case 0 => At0()
    case 1 => At1()
    case 2 => At2()
    case 3 => At3()
    case 4 => At4()
    case 5 => At5()
    case 6 => At6()
    case 7 => At7()
    case 8 => At8()
    case 9 => At9()
    case 10 => At10()
    case 11 => At11()
    case 12 => At12()
    case 13 => At13()
    case 14 => At14()
    case 15 => At15()
    case _ => At16()
  }

  function LostAction(k: nat): Action {
    match k
    case 0 => Turn(Choice([1], false, [], []))
    case 1 => Turn(Choice([2], false, [], [2]))
    case 2 => Turn(Choice([], true, [], []))
    case 3 => Turn(Choice([], false, [], []))
    case 4 => Signal
    case 5 => Turn(Choice([], false, [], []))
    case 6 => Turn(Choice([], true, [], []))
    case 7 => Turn(Choice([], false, [0, 1], [0, 1]))
    case 8 => Turn(Choice([], false, [2], [2]))
    case 9 => Turn(Choice([], true, [], []))
    case 10 => Turn(Choice([], false, [], []))
    case 11 => Turn(Choice([], false, [], []))
    case 12 => Turn(Choice([], false, [], []))
    case 13 => Turn(Choice([], false, [], []))
    case 14 => Turn(Choice([], true, [], []))
    case _ => Turn(Choice([], false, [], [2, 0]))
  }

  lemma Extend(s: State, acts: seq<Action>, a: Action)
    requires ValidRun(s, acts) && Enabled(Final(s, acts), a)
    ensures ValidRun(s, acts + [a]) && Final(s, acts + [a]) == Next(Final(s, acts), a)
    decreases |acts|
  {
    if acts == [] {
      assert acts + [a] == [a];
    } else {
      Extend(Next(s, acts[0]), acts[1..], a);
      assert (acts + [a])[1..] == acts[1..] + [a];
    }
  }

  lemma LostStart()
    ensures Init([0]) == LostState(0)
  {
  }

  predicate StepOk(s: State, a: Action, s1: State) {
    Enabled(s, a) && Next(s, a) == s1
  }

  lemma Lost0()
    ensures StepOk(At0(), Turn(Choice([1], false, [], [])), At1())
  {
    var c := Choice([1], false, [], []);
    assert Elems([1]) == {1};
    assert StepBody(Pop(At0()), 0, c).objs == At1().objs;
  }

  lemma Lost1()
    ensures StepOk(At1(), Turn(Choice([2], false, [], [2])), At2())
  {
    assert Elems([2]) == {2} && Enumerates([2], {2});
    Lost1Start();
    Lost1Wait();
  }

  function JobStarted(): State {
    State([Resume(2)],
          map[0 := At1().objs[0], 1 := At1().objs[1], 2 := Obj(CiJob, Fresh, false, 0, {}, [CleanupCb(2)])],
          {0, 1, 2}, [], {}, AwaitStop, 0)
  }

  lemma Lost1Start()
    ensures StartAll(Pop(At1()), CiJob, [2]) == JobStarted()
  {
    assert Elems([2]) == {2};
    assert StartAll(Pop(At1()), CiJob, [2]).objs == JobStarted().objs;
  }

  lemma Lost1Wait()
    ensures TaskWait(JobStarted(), 1, false, {2}, Choice([2], false, [], [2])) == At2()
  {
    var o := JobStarted().objs[1].(phase := Waiting(false, {2}, 0), started := {2});
    assert {} + {2} == {2};
    var s := SetObj(JobStarted(), 1, o);
    assert WaitCbs(s, TaskWaiter(1), [2]) == [];
    assert [CleanupCb(2)] + [WaitCb(TaskWaiter(1), 0, 2)] == [CleanupCb(2), WaitCb(TaskWaiter(1), 0, 2)];
    assert Register(s, TaskWaiter(1), [2]).objs == At2().objs;
  }

  lemma Lost2()
    ensures StepOk(At2(), Turn(Choice([], true, [], [])), At3())
  {
    assert StepBody(Pop(At2()), 2, Choice([], true, [], [])).objs == At3().objs;
  }

  lemma Lost3()
    ensures StepOk(At3(), Turn(Choice([], false, [], [])), At4())
  {
  }

  lemma Lost4()
    ensures StepOk(At4(), Signal, At5())
  {
  }

  lemma Lost5()
    ensures StepOk(At5(), Turn(Choice([], false, [], [])), At6())
  {
  }

  lemma Lost6()
    ensures StepOk(At6(), Turn(Choice([], true, [], [])), At7())
  {
  }

  lemma Lost7()
    ensures StepOk(At7(), Turn(Choice([], false, [0, 1], [0, 1])), At8())
  {
    Lost7Enabled();
    Lost7Sweep();
    Lost7Drain();
    Lost7Root(Choice([], false, [0, 1], [0, 1]));
  }

  lemma Lost7Enabled()
    ensures Enabled(At7(), Turn(Choice([], false, [0, 1], [0, 1])))
  {
    assert Enumerates([0, 1], {0, 1});
  }

  /** The turn of Root.run that gets the signal. */
  lemma Lost7Root(c: Choice)
    requires Enabled(At7(), Turn(c))
    ensures Next(At7(), Turn(c)) == EnterDrain(CancelAll(Pop(At7()), c.cancelOrder), c)
  {
  }

  function Swept(): State {
    At7().(ready := [Resume(1), Resume(0)],
                  objs := map[0 := At7().objs[0].(cancel := true, cancels := 1),
                              1 := At7().objs[1].(cancel := true, cancels := 1),
                              2 := At7().objs[2]])
  }

  lemma Lost7Sweep()
    ensures CancelAll(Pop(At7()), [0, 1]) == Swept()
  {
    var p := Pop(At7());
    assert CancelWakes(p, [1]) == [];
    assert CancelWakes(p, [0, 1]) == [Resume(0)] + CancelWakes(p, [1]);
    assert CancelAll(p, [0, 1]).objs == Swept().objs;
  }

  lemma Lost7Drain()
    ensures EnterDrain(Swept(), Choice([], false, [0, 1], [0, 1])) == At8()
  {
    var q := Swept().(root := Draining({0, 1}, 1));
    assert WaitCbs(q, RootWaiter, [1]) == [];
    assert WaitCbs(q, RootWaiter, [0, 1]) == [] + WaitCbs(q, RootWaiter, [1]);
    assert [CleanupCb(0)] + [WaitCb(RootWaiter, 1, 0)] == At8().objs[0].callbacks;
    assert [CleanupCb(1)] + [WaitCb(RootWaiter, 1, 1)] == At8().objs[1].callbacks;
    assert Register(q, RootWaiter, [0, 1]).objs == At8().objs;
  }

  lemma Lost8()
    ensures StepOk(At8(), Turn(Choice([], false, [2], [2])), At9())
  {
    Lost8Enabled();
    Lost8Cancel();
    Lost8Wait();
  }

  lemma Lost8Enabled()
    ensures Enabled(At8(), Turn(Choice([], false, [2], [2])))
  {
    assert Enumerates([2], {2});
  }

  lemma Lost8Cancel()
    ensures CancelAll(Pop(At8()), [2]) == Pop(At8())
  {
    var p := Pop(At8());
    assert CancelWakes(p, [2]) == [];
    assert CancelAll(p, [2]).objs == p.objs;
  }

  lemma Lost8Wait()
    ensures TaskWait(Pop(At8()), 1, true, {2}, Choice([], false, [2], [2])) == At9()
  {
    var p := Pop(At8());
    assert {2} + {2} == {2};
    var s := SetObj(p, 1, p.objs[1].(phase := Waiting(true, {2}, 2), cancel := false));
    assert WaitCbs(s, TaskWaiter(1), [2]) == [WaitCb(TaskWaiter(1), 2, 2)];
    assert Register(s, TaskWaiter(1), [2]).objs == At9().objs;
  }

  lemma Lost9()
    ensures StepOk(At9(), Turn(Choice([], true, [], [])), At10())
  {
    assert StepBody(Pop(At9()), 0, Choice([], true, [], [])).objs == At10().objs;
  }

  lemma Lost10()
    ensures StepOk(At10(), Turn(Choice([], false, [], [])), At11())
  {
  }

  lemma Lost11()
    ensures StepOk(At11(), Turn(Choice([], false, [], [])), At12())
  {
  }

  lemma Lost12()
    ensures StepOk(At12(), Turn(Choice([], false, [], [])), At13())
  {
  }

  lemma Lost13()
    ensures StepOk(At13(), Turn(Choice([], false, [], [])), At14())
  {
    var p := Pop(At13());
    assert Undone(p, {2}) == {};
    assert StepTask(p, 1, Choice([], false, [], [])).objs == At14().objs;
  }

  lemma Lost14()
    ensures StepOk(At14(), Turn(Choice([], true, [], [])), At15())
  {
  }

  lemma Lost15()
    ensures StepOk(At15(), Turn(Choice([], false, [], [2, 0])), At16())
  {
    var p := Pop(At15());
    assert DrainDone(p) == {0, 1};
    assert Elems([2, 0]) == {2, 0} && Enumerates([2, 0], {2, 0});
    var q := p.(table := {});
    assert CleanupCbs(q, [2, 0]) == [CleanupWaitCb(2)] + CleanupCbs(q, [0]);
    assert CleanupCbs(q, [0]) == [CleanupWaitCb(0)];
  }

  lemma LostSteps(k: nat)
    requires k < 16
    ensures StepOk(LostState(k), LostAction(k), LostState(k + 1))
  {
    match k
    case 0 => Lost0();
    case 1 => Lost1();
    case 2 => Lost2();
    case 3 => Lost3();
    case 4 => Lost4();
    case 5 => Lost5();
    case 6 => Lost6();
    case 7 => Lost7();
    case 8 => Lost8();
    case 9 => Lost9();
    case 10 => Lost10();
    case 11 => Lost11();
    case 12 => Lost12();
    case 13 => Lost13();
    case 14 => Lost14();
    case _ => Lost15();
  }

  lemma {:induction false} LostReach(k: nat) returns (acts: seq<Action>)
    requires k <= 16
    ensures ValidRun(Init([0]), acts) && Final(Init([0]), acts) == LostState(k)
  {
    if k == 0 {
      LostStart();
      acts := [];
    } else {
      acts := LostReach(k - 1);
      LostSteps(k - 1);
      Extend(Init([0]), acts, LostAction(k - 1));
      acts := acts + [LostAction(k - 1)];
    }
  }

  /** A task that is done and will never be cleaned up. */
  ghost predicate LosesTask(s: State, f: Fut) {
    f in s.objs && s.objs[f].kind.CiTask? && IsDone(s, f) && f in Lost(s)
  }

  lemma LastLoses()
    ensures LosesTask(LostState(16), 1)
  {
  }

  lemma NothingLostYet()
    ensures Lost(At0()) == {}
  {
  }

  lemma LostIsOutOfOrder(s: State, acts: seq<Action>)
    requires Inv(s) && Lost(s) == {} && ValidRun(s, acts) && Lost(Final(s, acts)) != {}
    ensures !InOrder(s, acts)
  {
    LostRun(s, acts);
  }

  /** Shutdown can lose a task, with its results unpublished, even though every
      object obeys its cancellation at once. */
  lemma ShutdownCanLoseTask() returns (acts: seq<Action>)
    ensures ValidRun(Init([0]), acts) && !InOrder(Init([0]), acts)
    ensures LosesTask(Final(Init([0]), acts), 1)
  {
    acts := LostReach(16);
    LastLoses();
    LostStart();
    InitHolds([0]);
    NothingLostYet();
    LostIsOutOfOrder(At0(), acts);
  }

  /** A daemon without services stops at once. */
  lemma StopIsReachable() returns (acts: seq<Action>)
    ensures ValidRun(Init([]), acts) && Final(Init([]), acts).root.Stopped?
  {
    var turn := Turn(Choice([], false, [], []));
    var s1 := Next(Init([]), Signal);
    assert Enabled(s1, turn);
    acts := [] + [Signal];
    Extend(Init([]), [], Signal);
    Extend(Init([]), acts, turn);
    acts := acts + [turn];
  }

  /** A job can be done before the stop sweep. */
  lemma DoneBeforeStopIsReachable() returns (acts: seq<Action>)
    ensures ValidRun(Init([0]), acts) && Final(Init([0]), acts).root.AwaitStop? && IsDone(Final(Init([0]), acts), 2)
  {
    acts := LostReach(3);
  }
}
