/**
 The cleanup theorems of rallyci/root.py, over every run of the event loop.

 `Root.wait_fs` and `Root.schedule_cleanup` both delete from the table of running
 objects.  When wait_fs resumes while the cleanup callback of a finished object
 is still queued, that object is overtaken: its callback finds no entry and its
 cleanup never starts.  The theorems say exactly which objects are lost, and what
 shutdown guarantees in every run.
 */
module Shutdown {
  import opened Sequences
  import opened EventLoop
  import opened Lifecycle

  /** Finished, out of the table, and never scheduled for cleanup. */
  function Lost(s: State): set<Fut> {
    set f | f in s.objs && IsDone(s, f) && f !in s.table && f !in s.cleanups
  }

  /** What a step of wait_fs in Root.run deletes ahead of its cleanup callback. */
  function Overtaken(s: State, a: Action): set<Fut> {
    if a.Turn? && s.ready != [] && s.ready[0] == ResumeRoot
    then set f | f in DrainDone(s) && CleanupCb(f) in s.ready
    else {}
  }

  function OvertakenIn(s: State, acts: seq<Action>): set<Fut>
    requires ValidRun(s, acts)
    decreases |acts|
  {
    if acts == [] then {} else Overtaken(s, acts[0]) + OvertakenIn(Next(s, acts[0]), acts[1..])
  }

  /** Each finished future's cleanup callback runs before wait_fs resumes. */
  predicate InOrder(s: State, acts: seq<Action>)
    requires ValidRun(s, acts)
    decreases |acts|
  {
    acts == [] || (Overtaken(s, acts[0]) == {} && InOrder(Next(s, acts[0]), acts[1..]))
  }

  /** The cleanup of `f` is scheduled, or its callback is queued and will find its entry. */
  predicate Accounted(s: State, f: Fut) {
    f in s.cleanups || (f in s.table && CleanupCb(f) in s.ready)
  }

  // ------------------------------------------------- one step

  /** A change that finishes objects but takes none out of the table. */
  ghost predicate Quiet(s: State, s1: State) {
    && s1.cleanups == s.cleanups
    && (forall f :: IsDone(s, f) ==> IsDone(s1, f) && (f in s1.table <==> f in s.table))
    && (forall f :: IsDone(s1, f) && !IsDone(s, f) ==> f in s1.table)
  }

  lemma QuietLost(s: State, s1: State)
    requires Quiet(s, s1)
    ensures Lost(s1) == Lost(s)
  {
  }

  lemma QuietComplete(s: State, f: Fut)
    requires f in s.objs && f in s.table
    ensures Quiet(s, Complete(s, f))
  {
  }

  lemma QuietTaskWait(s: State, t: Fut, second: bool, fs: set<Fut>, c: Choice)
    requires t in s.objs && !s.objs[t].phase.Done? && t in s.table
    ensures Quiet(s, TaskWait(s, t, second, fs, c))
  {
  }

  lemma QuietTask(s: State, t: Fut, c: Choice)
    requires t in s.objs && !s.objs[t].phase.Done? && t in s.table
    requires forall f :: f in c.starts ==> f !in s.objs
    ensures Quiet(s, StepTask(s, t, c))
  {
    var o := s.objs[t];
    if o.phase.Fresh? && !o.cancel {
      QuietTaskWait(StartAll(s, CiJob, c.starts), t, false, Elems(c.starts), c);
    } else if o.phase.Waiting? && o.cancel && !o.phase.second {
      QuietTaskWait(CancelAll(s, c.cancelOrder), t, true, o.phase.fs, c);
    } else if o.phase.Waiting? && !o.cancel {
      QuietTaskWait(s, t, o.phase.second, Undone(s, o.phase.fs), c);
    }
  }

  lemma QuietBody(s: State, f: Fut, c: Choice)
    requires f in s.objs && !s.objs[f].phase.Done? && f in s.table
    requires forall g :: g in c.starts ==> g !in s.objs
    ensures Quiet(s, StepBody(s, f, c))
  {
    var s1 := StartAll(SetObj(s, f, s.objs[f].(phase := Active, cancel := false)), CiTask, c.starts);
    assert Quiet(s, s1);
    QuietComplete(s1, f);
  }

  lemma LostResume(s: State, f: Fut, c: Choice)
    requires Inv(s) && s.ready != [] && s.ready[0] == Resume(f) && ChoiceOk(s, Resume(f), c)
    ensures Lost(TurnOf(s, c)) == Lost(s)
  {
    ResumeIsLive(s, f);
    if s.objs[f].kind.CiTask? {
      QuietTask(Pop(s), f, c);
      QuietLost(Pop(s), StepTask(Pop(s), f, c));
    } else {
      QuietBody(Pop(s), f, c);
      QuietLost(Pop(s), StepBody(Pop(s), f, c));
    }
    assert Lost(Pop(s)) == Lost(s);
  }

  lemma LostCallback(s: State, f: Fut)
    requires Inv(s) && s.ready != [] && s.ready[0] == CleanupCb(f)
    ensures Lost(StepCleanupCb(Pop(s), f)) == Lost(s)
  {
    assert Count(s, CleanupCb(f)) > 0;
    assert EntryOk(s, f);
  }

  lemma EnterDrainLost(s: State, c: Choice)
    ensures Lost(EnterDrain(s, c)) == Lost(s)
  {
    QuietLost(s, EnterDrain(s, c));
  }

  lemma LostDrain(s: State)
    requires Inv(s)
    ensures Lost(s.(table := s.table - DrainDone(s))) == Lost(s) + set f | f in DrainDone(s) && CleanupCb(f) in s.ready
  {
    var s1 := s.(table := s.table - DrainDone(s));
    forall f | f in s.objs
      ensures f in Lost(s1) <==> f in Lost(s) || (f in DrainDone(s) && Count(s, CleanupCb(f)) > 0)
    {
      assert EntryOk(s, f);
    }
  }

  lemma SameLost(s: State, s1: State)
    requires s1.objs == s.objs && s1.table == s.table && s1.cleanups == s.cleanups
    ensures Lost(s1) == Lost(s)
  {
  }

  lemma LostSweep(p: State, c: Choice)
    requires p.root.AwaitStop?
    ensures Lost(StepRoot(p, c)) == Lost(p)
  {
    QuietLost(p, CancelAll(p, c.cancelOrder));
    EnterDrainLost(CancelAll(p, c.cancelOrder), c);
  }

  lemma LostRoot(s: State, c: Choice)
    requires Inv(s) && s.ready != [] && s.ready[0] == ResumeRoot
    ensures Lost(StepRoot(Pop(s), c)) == Lost(s) + Overtaken(s, Turn(c))
  {
    var p := Pop(s);
    SameLost(s, p);
    if s.root.AwaitStop? {
      LostSweep(p, c);
    } else if s.root.Draining? {
      LostDrain(s);
      assert DrainDone(p) == DrainDone(s);
      SameLost(s.(table := s.table - DrainDone(s)), p.(table := p.table - DrainDone(p)));
      EnterDrainLost(p.(table := p.table - DrainDone(p)), c);
    } else {
      SameLost(p, StepRoot(p, c));
    }
  }

  lemma LostTurn(s: State, c: Choice)
    requires Inv(s) && s.ready != [] && ChoiceOk(s, s.ready[0], c)
    ensures Lost(TurnOf(s, c)) == Lost(s) + Overtaken(s, Turn(c))
  {
    match s.ready[0]
    case Resume(f) => LostResume(s, f, c);
    case ResumeRoot => LostRoot(s, c);
    case CleanupCb(f) => LostCallback(s, f);
    case WaitCb(w, gen, f) => SameLost(s, TurnOf(s, c));
    case ResumeCleanup(f) => SameLost(s, TurnOf(s, c));
    case CleanupWaitCb(f) => SameLost(s, TurnOf(s, c));
  }

  /** A step loses exactly what it overtakes. */
  lemma LostStep(s: State, a: Action)
    requires Inv(s) && Enabled(s, a)
    ensures Lost(Next(s, a)) == Lost(s) + Overtaken(s, a)
  {
    if a.Turn? {
      LostTurn(s, a.c);
    } else if a.Cancel? {
      QuietLost(s, Next(s, a));
    } else {
      SameLost(s, Next(s, a));
    }
  }

  // ------------------------------------------------- every run

  /** The objects never cleaned up are exactly those overtaken during the run. */
  lemma {:induction false} LostRun(s: State, acts: seq<Action>)
    requires Inv(s) && ValidRun(s, acts)
    ensures Lost(Final(s, acts)) == Lost(s) + OvertakenIn(s, acts)
    ensures InOrder(s, acts) <==> OvertakenIn(s, acts) == {}
    decreases |acts|
  {
    if acts != [] {
      LostStep(s, acts[0]);
      NextKeeps(s, acts[0]);
      LostRun(Next(s, acts[0]), acts[1..]);
    }
  }

  /** In every run an object is cleaned up at most once and only when it is done;
      every finished object is accounted for if and only if the run is in order. */
  lemma CleanupExactlyOnce(services: seq<Fut>, acts: seq<Action>)
    requires Distinct(services) && ValidRun(Init(services), acts)
    ensures var s := Final(Init(services), acts);
            && (forall i, j :: 0 <= i < j < |s.cleanups| ==> s.cleanups[i] != s.cleanups[j])
            && (forall f :: f in s.cleanups ==> IsDone(s, f))
            && (InOrder(Init(services), acts) <==> forall f :: IsDone(s, f) ==> Accounted(s, f))
  {
    InitHolds(services);
    RunKeeps(Init(services), acts);
    LostRun(Init(services), acts);
    var s := Final(Init(services), acts);
    assert Lost(Init(services)) == {};
    forall f | f in s.objs
      ensures f in s.cleanups ==> IsDone(s, f)
      ensures IsDone(s, f) ==> (f in Lost(s) <==> !Accounted(s, f))
    {
      assert EntryOk(s, f);
    }
    if f :| f in Lost(s) {
      assert IsDone(s, f) && !Accounted(s, f);
    }
  }

  /** When the loop stops, every object ever started is done and every scheduled
      cleanup has finished; all of them are cleaned up exactly when the run is in order. */
  lemma StoppedIsClean(services: seq<Fut>, acts: seq<Action>)
    requires Distinct(services) && ValidRun(Init(services), acts)
    requires Final(Init(services), acts).root.Stopped?
    ensures var s := Final(Init(services), acts);
            && (forall f :: f in s.objs ==> IsDone(s, f))
            && (forall f :: f in s.cleanups ==> f in s.cleaned)
            && (InOrder(Init(services), acts) <==> forall f :: f in s.objs ==> f in s.cleaned)
  {
    CleanupExactlyOnce(services, acts);
    InitHolds(services);
    RunKeeps(Init(services), acts);
    StoppedIsDone(Final(Init(services), acts));
  }

  lemma StoppedIsDone(s: State)
    requires Inv(s) && s.root.Stopped?
    ensures (forall f :: f in s.objs ==> IsDone(s, f))
        && (forall f :: f in s.cleanups ==> f in s.cleaned && f in s.objs)
    ensures forall f :: f in s.objs ==> (Accounted(s, f) <==> f in s.cleaned)
  {
    forall f | f in s.objs ensures IsDone(s, f) {
      assert EntryOk(s, f);
    }
    assert forall f :: f in s.cleanups ==> f in Elems(s.cleanups);
  }
}
