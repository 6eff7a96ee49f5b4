/**
 Exactly when a task is done before its jobs (rallyci/task.py: Task.run): when a cancellation
 reaches it in its second wait.
 */
module JobsFirst {
  import opened Sequences
  import opened EventLoop
  import opened Lifecycle

  /** A finished task has only finished jobs, so its cleanup may publish. */
  ghost predicate JobsFirst(s: State) {
    forall t :: t in s.objs && s.objs[t].kind.CiTask? && IsDone(s, t) ==> AllDone(s, s.objs[t].started)
  }

  /** Task `t` is cancelled in its second wait, with a job still running. */
  predicate CancelledAgain(s: State, t: Fut) {
    && t in s.objs && s.objs[t].kind.CiTask? && s.objs[t].phase.Waiting?
    && s.objs[t].phase.second && s.objs[t].cancel && Undone(s, s.objs[t].phase.fs) != {}
  }

  /** The turn that delivers such a cancellation. */
  predicate Abandons(s: State, a: Action) {
    a.Turn? && s.ready != [] && s.ready[0].Resume? && CancelledAgain(s, s.ready[0].f)
  }

  // ------------------------------------------------- what a turn leaves alone

  predicate SameObj(o: Obj, o1: Obj) {
    o1.kind == o.kind && o1.started == o.started && o1.phase.Done? == o.phase.Done?
  }

  /** Of the objects that exist, at most `t` finishes or starts jobs; new ones are not done. */
  ghost predicate OnlyMoves(s: State, s1: State, t: Fut) {
    && (forall g :: g in s.objs && g != t ==> g in s1.objs && SameObj(s.objs[g], s1.objs[g]))
    && (forall g :: g in s1.objs && g !in s.objs ==> !s1.objs[g].phase.Done?)
  }

  lemma JobsFirstFrame(s: State, s1: State, t: Fut)
    requires Inv(s) && JobsFirst(s) && OnlyMoves(s, s1, t) && (IsDone(s, t) ==> IsDone(s1, t))
    requires t in s1.objs && s1.objs[t].kind.CiTask? && IsDone(s1, t) ==> AllDone(s1, s1.objs[t].started)
    ensures JobsFirst(s1)
  {
    forall g | g in s1.objs && s1.objs[g].kind.CiTask? && IsDone(s1, g) ensures AllDone(s1, s1.objs[g].started) {
      if g != t {
        assert IsDone(s, g) && AllDone(s, s.objs[g].started);
      }
    }
  }

  lemma TaskWaitMoves(s: State, t: Fut, second: bool, fs: set<Fut>, c: Choice)
    requires t in s.objs
    ensures OnlyMoves(s, TaskWait(s, t, second, fs, c), t)
    ensures var s1 := TaskWait(s, t, second, fs, c);
            && t in s1.objs && s1.objs[t].kind == s.objs[t].kind
            && (fs == {} ==> s1.objs[t].phase.Done? && s1.objs[t].started == s.objs[t].started)
            && (fs != {} ==> !s1.objs[t].phase.Done? || s.objs[t].phase.Done?)
  {
  }

  lemma StartMoves(s: State, kind: Kind, fs: seq<Fut>, t: Fut)
    requires forall f :: f in fs ==> f !in s.objs
    ensures OnlyMoves(s, StartAll(s, kind, fs), t)
    ensures t in s.objs ==> t in StartAll(s, kind, fs).objs && StartAll(s, kind, fs).objs[t] == s.objs[t]
  {
  }

  lemma CancelMoves(s: State, order: seq<Fut>, t: Fut)
    ensures OnlyMoves(s, CancelAll(s, order), t)
    ensures t in s.objs ==> t in CancelAll(s, order).objs && SameObj(s.objs[t], CancelAll(s, order).objs[t])
  {
  }

  lemma MovesTwice(s: State, s1: State, s2: State, t: Fut)
    requires OnlyMoves(s, s1, t) && OnlyMoves(s1, s2, t) && t in s.objs
    ensures OnlyMoves(s, s2, t)
  {
  }

  /** What a turn of task `t` does to it. */
  ghost predicate Turned(s: State, s1: State, t: Fut)
    requires t in s.objs
  {
    && OnlyMoves(s, s1, t) && t in s1.objs && s1.objs[t].kind == s.objs[t].kind
    && (s1.objs[t].phase.Done? ==> s1.objs[t].started == s.objs[t].started)
    && (CancelledAgain(s, t) ==> s1.objs[t].phase.Done?)
    && (s1.objs[t].phase.Done? && !CancelledAgain(s, t) ==>
          s.objs[t].phase.Fresh? || (s.objs[t].phase.Waiting? && Undone(s, s.objs[t].phase.fs) == {}))
  }

  lemma FreshTurned(s: State, t: Fut, c: Choice)
    requires t in s.objs && s.objs[t].kind.CiTask? && s.objs[t].phase.Fresh?
    requires forall f :: f in c.starts ==> f !in s.objs
    ensures Turned(s, StepTask(s, t, c), t)
  {
    if !s.objs[t].cancel {
      var s1 := StartAll(s, CiJob, c.starts);
      StartMoves(s, CiJob, c.starts, t);
      TaskWaitMoves(s1, t, false, Elems(c.starts), c);
      MovesTwice(s, s1, StepTask(s, t, c), t);
    }
  }

  lemma WaitingTurned(s: State, t: Fut, c: Choice)
    requires t in s.objs && s.objs[t].kind.CiTask? && s.objs[t].phase.Waiting?
    ensures Turned(s, StepTask(s, t, c), t)
  {
    var o := s.objs[t];
    if !o.cancel {
      TaskWaitMoves(s, t, o.phase.second, Undone(s, o.phase.fs), c);
    } else if !o.phase.second {
      var s1 := CancelAll(s, c.cancelOrder);
      CancelMoves(s, c.cancelOrder, t);
      TaskWaitMoves(s1, t, true, o.phase.fs, c);
      MovesTwice(s, s1, StepTask(s, t, c), t);
    }
  }

  lemma TurnedExactly(s: State, s1: State, t: Fut)
    requires Inv(s) && JobsFirst(s) && t in s.objs && s.objs[t].kind.CiTask? && !IsDone(s, t) && Turned(s, s1, t)
    ensures JobsFirst(s1) <==> !CancelledAgain(s, t)
  {
    var o := s.objs[t];
    assert TaskOk(s, o);
    if CancelledAgain(s, t) {
      var g :| g in Undone(s, o.phase.fs);
      assert g in s1.objs[t].started && g in s1.objs && !IsDone(s1, g);
    } else {
      assert s1.objs[t].phase.Done? ==> AllDone(s, o.started) by {
        if o.phase.Waiting? && Undone(s, o.phase.fs) == {} {
          assert forall f :: f in o.phase.fs ==> IsDone(s, f) by {
            assert forall f :: f in o.phase.fs && !IsDone(s, f) ==> f in Undone(s, o.phase.fs);
          }
        }
      }
      JobsFirstFrame(s, s1, t);
    }
  }

  lemma PopSame(s: State, t: Fut)
    requires s.ready != []
    ensures JobsFirst(Pop(s)) <==> JobsFirst(s)
    ensures CancelledAgain(Pop(s), t) <==> CancelledAgain(s, t)
  {
    forall fs: set<Fut> ensures Undone(Pop(s), fs) == Undone(s, fs) && (AllDone(Pop(s), fs) <==> AllDone(s, fs)) {
    }
  }

  lemma StepTaskExactly(s: State, t: Fut, c: Choice)
    requires Inv(s) && JobsFirst(s) && t in s.objs && s.objs[t].kind.CiTask? && !IsDone(s, t)
    requires forall f :: f in c.starts ==> f !in s.objs
    ensures JobsFirst(StepTask(s, t, c)) <==> !CancelledAgain(s, t)
  {
    assert TaskOk(s, s.objs[t]);
    if s.objs[t].phase.Fresh? {
      FreshTurned(s, t, c);
    } else {
      WaitingTurned(s, t, c);
    }
    TurnedExactly(s, StepTask(s, t, c), t);
  }

  lemma TaskTurnExactly(s: State, c: Choice, t: Fut)
    requires Inv(s) && JobsFirst(s) && s.ready != [] && s.ready[0] == Resume(t) && ChoiceOk(s, Resume(t), c)
    requires s.objs[t].kind.CiTask?
    ensures JobsFirst(TurnOf(s, c)) <==> !CancelledAgain(s, t)
  {
    ResumeIsLive(s, t);
    PopKeeps(s);
    PopSame(s, t);
    StepTaskExactly(Pop(s), t, c);
  }

  // ------------------------------------------------- other steps

  lemma BodyMoves(s: State, f: Fut, c: Choice)
    requires f in s.objs && forall g :: g in c.starts ==> g !in s.objs
    ensures OnlyMoves(s, StepBody(s, f, c), f)
    ensures f in StepBody(s, f, c).objs && StepBody(s, f, c).objs[f].kind == s.objs[f].kind
  {
  }

  /** No object finishes and none starts jobs. */
  ghost predicate NothingMoves(s: State, s1: State) {
    && (forall g :: g in s.objs ==> g in s1.objs && SameObj(s.objs[g], s1.objs[g]))
    && (forall g :: g in s1.objs && g !in s.objs ==> !s1.objs[g].phase.Done?)
  }

  lemma NothingMovesKeeps(s: State, s1: State)
    requires Inv(s) && JobsFirst(s) && NothingMoves(s, s1)
    ensures JobsFirst(s1)
  {
    forall g | g in s1.objs && s1.objs[g].kind.CiTask? && IsDone(s1, g) ensures AllDone(s1, s1.objs[g].started) {
      assert IsDone(s, g) && AllDone(s, s.objs[g].started);
    }
  }

  lemma RootMoves(s: State, c: Choice)
    ensures NothingMoves(s, StepRoot(s, c))
  {
  }

  lemma OtherMoves(s: State, a: Action)
    requires Enabled(s, a) && (a.Turn? ==> !s.ready[0].Resume?)
    ensures NothingMoves(s, Next(s, a))
  {
    if a.Turn? && s.ready[0].ResumeRoot? {
      RootMoves(Pop(s), a.c);
    }
  }

  lemma BodyKeeps(s: State, c: Choice, f: Fut)
    requires Inv(s) && JobsFirst(s) && f in s.objs && !s.objs[f].kind.CiTask? && !IsDone(s, f)
    requires forall g :: g in c.starts ==> g !in s.objs
    ensures JobsFirst(StepBody(s, f, c))
  {
    BodyMoves(s, f, c);
    JobsFirstFrame(s, StepBody(s, f, c), f);
  }

  lemma BodyTurnKeeps(s: State, c: Choice, f: Fut)
    requires Inv(s) && JobsFirst(s) && s.ready != [] && s.ready[0] == Resume(f) && ChoiceOk(s, Resume(f), c)
    requires !s.objs[f].kind.CiTask?
    ensures JobsFirst(TurnOf(s, c))
  {
    ResumeIsLive(s, f);
    PopKeeps(s);
    PopSame(s, f);
    BodyKeeps(Pop(s), c, f);
  }

  /** Where finished tasks have only finished jobs, a step keeps it so if and only if it does not
      deliver a cancellation to a task in its second wait that has a job running. */
  lemma AbandonExactly(s: State, a: Action)
    requires Inv(s) && JobsFirst(s) && Enabled(s, a)
    ensures JobsFirst(Next(s, a)) <==> !Abandons(s, a)
  {
    if a.Turn? && s.ready[0].Resume? {
      if s.objs[s.ready[0].f].kind.CiTask? {
        TaskTurnExactly(s, a.c, s.ready[0].f);
      } else {
        BodyTurnKeeps(s, a.c, s.ready[0].f);
      }
    } else {
      OtherMoves(s, a);
      NothingMovesKeeps(s, Next(s, a));
    }
  }

  // ------------------------------------------------- the first cancellation

  lemma CancelMarks(s: State, order: seq<Fut>, g: Fut)
    requires g in s.objs
    ensures var o, o1 := s.objs[g], CancelAll(s, order).objs[g];
            && (g in order && !o.phase.Done? ==> o1.cancel && o1.cancels == o.cancels + 1)
            && (g !in order || o.phase.Done? ==> o1 == o)
  {
  }

  lemma WaitKeepsMarks(s: State, t: Fut, second: bool, fs: set<Fut>, c: Choice, g: Fut)
    requires t in s.objs && g in s.objs && g != t
    ensures TaskWait(s, t, second, fs, c).objs[g].cancel == s.objs[g].cancel
    ensures TaskWait(s, t, second, fs, c).objs[g].cancels == s.objs[g].cancels
  {
  }

  /** A task that is cancelled in its first wait cancels exactly the unfinished jobs it waits for, each
      once, and waits for them again. */
  lemma FirstCancelReachesJobs(s: State, c: Choice, t: Fut, g: Fut)
    requires Inv(s) && s.ready != [] && s.ready[0] == Resume(t) && ChoiceOk(s, Resume(t), c)
    requires s.objs[t].kind.CiTask? && s.objs[t].phase.Waiting? && !s.objs[t].phase.second && s.objs[t].cancel
    requires g in s.objs && g != t
    ensures var o, o1 := s.objs[g], TurnOf(s, c).objs[g];
            && (g in s.objs[t].phase.fs && !IsDone(s, g) ==> o1.cancel && o1.cancels == o.cancels + 1)
            && (g !in s.objs[t].phase.fs || IsDone(s, g) ==> o1.cancel == o.cancel && o1.cancels == o.cancels)
    ensures s.objs[t].phase.fs != {} ==>
              TurnOf(s, c).objs[t].phase == Waiting(true, s.objs[t].phase.fs, s.gen)
  {
    var p, fs := Pop(s), s.objs[t].phase.fs;
    CancelMarks(p, c.cancelOrder, g);
    WaitKeepsMarks(CancelAll(p, c.cancelOrder), t, true, fs, c, g);
  }

  // ------------------------------------------------- runs

  ghost predicate AlwaysJobsFirst(s: State, acts: seq<Action>)
    requires ValidRun(s, acts)
    decreases |acts|
  {
    JobsFirst(s) && (acts == [] || AlwaysJobsFirst(Next(s, acts[0]), acts[1..]))
  }

  predicate NeverAbandons(s: State, acts: seq<Action>)
    requires ValidRun(s, acts)
    decreases |acts|
  {
    acts == [] || (!Abandons(s, acts[0]) && NeverAbandons(Next(s, acts[0]), acts[1..]))
  }

  lemma {:induction false} JobsFirstRun(s: State, acts: seq<Action>)
    requires Inv(s) && JobsFirst(s) && ValidRun(s, acts)
    ensures AlwaysJobsFirst(s, acts) <==> NeverAbandons(s, acts)
    decreases |acts|
  {
    if acts != [] {
      AbandonExactly(s, acts[0]);
      if !Abandons(s, acts[0]) {
        NextKeeps(s, acts[0]);
        JobsFirstRun(Next(s, acts[0]), acts[1..]);
      }
    }
  }

  /** Throughout a run finished tasks have only finished jobs if and only if no such cancellation
      is delivered in it. */
  lemma JobsFirstExactly(services: seq<Fut>, acts: seq<Action>)
    requires Distinct(services) && ValidRun(Init(services), acts)
    ensures AlwaysJobsFirst(Init(services), acts) <==> NeverAbandons(Init(services), acts)
  {
    InitHolds(services);
    JobsFirstRun(Init(services), acts);
  }
}
