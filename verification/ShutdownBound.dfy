/**
 Shutdown comes to its end: after the stop sweep, if every service and job ends when its
 cancellation reaches it, the number of turns of the loop is bounded.
 */
module ShutdownBound {
  import opened Sequences
  import opened EventLoop
  import opened Lifecycle
  import opened WakeUps
  import opened GenuineWakes

  // ------------------------------------------------- after the sweep

  /** Every unfinished object has its cancellation coming, or is a task in its second wait. */
  predicate Swept(s: State) {
    && !s.root.AwaitStop? && (s.root.Draining? ==> s.table <= s.root.waited)
    && forall f :: f in s.objs && !s.objs[f].phase.Done? ==>
         (s.objs[f].phase.Waiting? && s.objs[f].phase.second) || (s.objs[f].cancel && Resume(f) in s.ready)
  }

  /** Nobody cancels any more, and a service or a job that is resumed ends and starts nothing. */
  predicate Prompt(s: State, a: Action) {
    && !a.Cancel?
    && (a.Turn? && s.ready != [] && s.ready[0].Resume? && s.ready[0].f in s.objs
        && !s.objs[s.ready[0].f].kind.CiTask? ==>
          a.c.finish && a.c.starts == [])
  }

  predicate PromptRun(s: State, acts: seq<Action>)
    requires ValidRun(s, acts)
    decreases |acts|
  {
    acts == [] || (Prompt(s, acts[0]) && PromptRun(Next(s, acts[0]), acts[1..]))
  }

  /** The turn of Root.run that gets the signal. */
  lemma SweepSweeps(s: State, c: Choice)
    requires Inv(s) && s.root.AwaitStop? && s.ready != [] && s.ready[0] == ResumeRoot && ChoiceOk(s, ResumeRoot, c)
    ensures Swept(TurnOf(s, c))
  {
    var p := Pop(s);
    var q := CancelAll(p, c.cancelOrder);
    forall f | f in q.objs && !q.objs[f].phase.Done? ensures q.objs[f].cancel && Resume(f) in q.ready {
      assert EntryOk(s, f);
      assert f in c.cancelOrder;
      CancelWakesAll(p, c.cancelOrder, f);
    }
    DrainSwept(q, c);
  }

  lemma DrainSwept(s: State, c: Choice)
    requires forall f :: f in s.objs && !s.objs[f].phase.Done? ==>
               (s.objs[f].phase.Waiting? && s.objs[f].phase.second) || (s.objs[f].cancel && Resume(f) in s.ready)
    ensures Swept(EnterDrain(s, c)) && EnterDrain(s, c).objs.Keys == s.objs.Keys
  {
  }

  /** Everybody but `t` is as far along and as much cancelled. */
  ghost predicate OthersSwept(s: State, s1: State, t: Fut) {
    && s1.root == s.root && s1.table == s.table && s1.objs.Keys == s.objs.Keys
    && (forall h :: h in s.ready ==> h in s1.ready)
    && (forall g :: g in s.objs && g != t ==>
          s1.objs[g].phase == s.objs[g].phase && (s.objs[g].cancel ==> s1.objs[g].cancel))
  }

  lemma OthersStay(s: State, s1: State, t: Fut)
    requires !s.root.AwaitStop? && (s.root.Draining? ==> s.table <= s.root.waited) && OthersSwept(s, s1, t)
    requires forall f :: f in s.objs && f != t && !s.objs[f].phase.Done? ==>
               (s.objs[f].phase.Waiting? && s.objs[f].phase.second) || (s.objs[f].cancel && Resume(f) in s.ready)
    requires t in s1.objs ==> s1.objs[t].phase.Done? || (s1.objs[t].phase.Waiting? && s1.objs[t].phase.second)
    ensures Swept(s1)
  {
  }

  lemma TaskWaitSwept(s: State, t: Fut, fs: set<Fut>, c: Choice)
    requires t in s.objs
    ensures var s1 := TaskWait(s, t, true, fs, c);
            && OthersSwept(s, s1, t)
            && (s1.objs[t].phase.Done? || (s1.objs[t].phase.Waiting? && s1.objs[t].phase.second))
  {
  }

  lemma CompleteSwept(s: State, f: Fut)
    requires f in s.objs
    ensures OthersSwept(s, Complete(s, f), f) && Complete(s, f).objs[f].phase.Done?
  {
  }

  lemma CancelSwept(s: State, order: seq<Fut>, t: Fut)
    ensures OthersSwept(s, CancelAll(s, order), t)
  {
  }

  lemma StepTaskSwept(p: State, t: Fut, c: Choice)
    requires t in p.objs && p.objs[t].kind.CiTask? && !p.objs[t].phase.Done? && !p.objs[t].phase.Active?
    requires p.objs[t].cancel || (p.objs[t].phase.Waiting? && p.objs[t].phase.second)
    ensures var s1 := StepTask(p, t, c);
            && OthersSwept(p, s1, t)
            && (s1.objs[t].phase.Done? || (s1.objs[t].phase.Waiting? && s1.objs[t].phase.second))
  {
    var o := p.objs[t];
    if o.phase.Fresh? || (o.cancel && o.phase.second) {
      CompleteSwept(p, t);
    } else if o.cancel {
      CancelSwept(p, c.cancelOrder, t);
      TaskWaitSwept(CancelAll(p, c.cancelOrder), t, o.phase.fs, c);
    } else {
      TaskWaitSwept(p, t, Undone(p, o.phase.fs), c);
    }
  }

  lemma StartNothing(s: State, kind: Kind)
    ensures StartAll(s, kind, []) == s
  {
    var s1 := StartAll(s, kind, []);
    assert s1.objs == s.objs && s1.ready == s.ready && s1.table == s.table;
  }

  lemma ResumeSwept(s: State, f: Fut, c: Choice)
    requires Inv(s) && Swept(s) && s.ready != [] && s.ready[0] == Resume(f) && ChoiceOk(s, Resume(f), c)
    requires !s.objs[f].kind.CiTask? ==> c.finish && c.starts == []
    ensures Swept(TurnOf(s, c)) && TurnOf(s, c).objs.Keys == s.objs.Keys
  {
    ResumeIsLive(s, f);
    var p := Pop(s);
    PopIn(s);
    assert TaskOk(s, s.objs[f]);
    if s.objs[f].kind.CiTask? {
      StepTaskSwept(p, f, c);
    } else {
      StartNothing(SetObj(p, f, p.objs[f].(phase := Active, cancel := false)), CiTask);
    }
    OthersStay(p, TurnOf(s, c), f);
  }

  lemma CallbackSwept(s: State, c: Choice)
    requires Swept(s) && s.ready != [] && !s.ready[0].Resume? && !s.ready[0].ResumeRoot? && ChoiceOk(s, s.ready[0], c)
    ensures Swept(TurnOf(s, c)) && TurnOf(s, c).objs.Keys == s.objs.Keys
  {
    PopIn(s);
  }

  lemma RootSwept(s: State, c: Choice)
    requires Swept(s) && s.ready != [] && s.ready[0] == ResumeRoot && ChoiceOk(s, ResumeRoot, c)
    ensures Swept(TurnOf(s, c)) && TurnOf(s, c).objs.Keys == s.objs.Keys
  {
    PopIn(s);
    if s.root.Draining? {
      var p := Pop(s);
      DrainSwept(p.(table := p.table - DrainDone(p)), c);
    }
  }

  lemma SweptStep(s: State, a: Action)
    requires Inv(s) && Swept(s) && Enabled(s, a) && Prompt(s, a)
    ensures Swept(Next(s, a)) && Next(s, a).objs.Keys == s.objs.Keys
  {
    if a.Turn? {
      if s.ready[0].Resume? {
        ResumeSwept(s, s.ready[0].f, a.c);
      } else if s.ready[0].ResumeRoot? {
        RootSwept(s, a.c);
      } else {
        CallbackSwept(s, a.c);
      }
    }
  }

  // ------------------------------------------------- sums

  function Sum(objs: map<Fut, Obj>, ids: seq<Fut>, g: Obj -> nat): nat {
    if ids == [] then 0 else (if ids[0] in objs then g(objs[ids[0]]) else 0) + Sum(objs, ids[1..], g)
  }

  lemma {:induction false} SumSame(objs: map<Fut, Obj>, more: map<Fut, Obj>, ids: seq<Fut>, g: Obj -> nat)
    requires forall f :: f in ids ==> (f in objs <==> f in more) && (f in objs ==> g(more[f]) == g(objs[f]))
    ensures Sum(more, ids, g) == Sum(objs, ids, g)
  {
    if ids != [] {
      SumSame(objs, more, ids[1..], g);
    }
  }

  lemma {:induction false} SumOne(objs: map<Fut, Obj>, ids: seq<Fut>, g: Obj -> nat, f: Fut, o: Obj)
    requires Distinct(ids) && f in ids && f in objs
    ensures Sum(objs[f := o], ids, g) + g(objs[f]) == Sum(objs, ids, g) + g(o)
  {
    if ids[0] == f {
      assert f !in ids[1..];
      SumSame(objs, objs[f := o], ids[1..], g);
    } else {
      SumOne(objs, ids[1..], g, f, o);
    }
  }

  lemma {:induction false} SumGrows(objs: map<Fut, Obj>, more: map<Fut, Obj>, ids: seq<Fut>, g: Obj -> nat)
    requires forall f :: f in ids ==> (f in objs <==> f in more) && (f in objs ==> g(more[f]) <= g(objs[f]) + 2)
    ensures Sum(more, ids, g) <= Sum(objs, ids, g) + 2 * |ids|
  {
    if ids != [] {
      SumGrows(objs, more, ids[1..], g);
    }
  }

  // ------------------------------------------------- the potential

  /** What a queued handle can still cause. */
  function Weight(h: Handle): nat {
    match h
    case Resume(_) => 1
    case ResumeRoot => 1
    case WaitCb(_, _, _) => 2
    case CleanupWaitCb(_) => 2
    case ResumeCleanup(_) => 3
    case CleanupCb(_) => 4
  }

  function Weights(hs: seq<Handle>): nat {
    if hs == [] then 0 else Weight(hs[0]) + Weights(hs[1..])
  }

  lemma {:induction false} WeightsConcat(a: seq<Handle>, b: seq<Handle>)
    ensures Weights(a + b) == Weights(a) + Weights(b)
  {
    if a == [] {
      assert a + b == b;
    } else {
      WeightsConcat(a[1..], b);
      assert (a + b)[1..] == a[1..] + b;
    }
  }

  /** How far an object is from its end. */
  function Stage(o: Obj): nat {
    if o.phase.Done? then 0
    else if o.phase.Waiting? then 1 + |o.phase.fs| + (if o.phase.second then 0 else 1)
    else 1
  }

  /** The callbacks that its completion will queue. */
  function Pend(o: Obj): nat {
    if o.phase.Done? then 0 else Weights(o.callbacks)
  }

  function RootStage(root: RootPhase): nat {
    match root
    case AwaitStop => 0
    case Draining(waited, _) => |waited| + 2
    case AwaitCleanups(_, _) => 1
    case Stopped => 0
  }

  function Stages(s: State, ids: seq<Fut>): nat {
    Sum(s.objs, ids, Stage) + RootStage(s.root)
  }

  function Queue(s: State, ids: seq<Fut>): nat {
    Sum(s.objs, ids, Pend) + Weights(s.ready)
  }

  function Potential(s: State, ids: seq<Fut>): nat {
    Stages(s, ids) * (5 * |ids| + 1) + Queue(s, ids)
  }

  /** The queue gets shorter, or something comes nearer to its end and the queue grows by little. */
  predicate Sinks(s: State, s1: State, ids: seq<Fut>) {
    || (Stages(s1, ids) <= Stages(s, ids) && Queue(s1, ids) < Queue(s, ids))
    || (Stages(s1, ids) < Stages(s, ids) && Queue(s1, ids) <= Queue(s, ids) + 5 * |ids|)
  }

  lemma Scaled(a: nat, b: nat, k: nat)
    requires a <= b
    ensures a * k <= b * k && (a < b ==> a * k + k <= b * k)
  {
    var d := b - a;
    assert b * k == a * k + d * k;
    if d > 0 {
      assert d * k == k + (d - 1) * k;
    }
  }

  lemma SinksPotential(s: State, s1: State, ids: seq<Fut>)
    requires Sinks(s, s1, ids)
    ensures Potential(s1, ids) < Potential(s, ids)
  {
    Scaled(Stages(s1, ids), Stages(s, ids), 5 * |ids| + 1);
  }

  // ------------------------------------------------- how the pieces of a step change it

  lemma {:induction false} DistinctSize(order: seq<Fut>)
    requires Distinct(order)
    ensures |Elems(order)| == |order|
  {
    if order != [] {
      var rest := order[1..];
      DistinctSize(rest);
      assert order[0] !in rest;
      assert Elems(order) == Elems(rest) + {order[0]};
    } else {
      assert Elems(order) == {};
    }
  }

  lemma Subset<T>(a: set<T>, b: set<T>)
    requires a <= b
    ensures |a| <= |b| && (a != b ==> |a| < |b|)
  {
    assert b == a + (b - a);
  }

  /** An order of some of the objects is not longer than one of all. */
  lemma OrderFits(order: seq<Fut>, fs: set<Fut>, ids: seq<Fut>)
    requires Enumerates(order, fs) && Distinct(ids) && fs <= Elems(ids)
    ensures |order| <= |ids|
  {
    DistinctSize(order);
    DistinctSize(ids);
    Subset(Elems(order), Elems(ids));
  }

  lemma CompleteSinks(s: State, f: Fut, ids: seq<Fut>)
    requires f in s.objs && !s.objs[f].phase.Done? && Distinct(ids) && f in ids
    ensures Stages(Complete(s, f), ids) + Stage(s.objs[f]) == Stages(s, ids)
    ensures Queue(Complete(s, f), ids) == Queue(s, ids)
  {
    var o := s.objs[f].(phase := Done, cancel := false, callbacks := []);
    SumOne(s.objs, ids, Stage, f, o);
    SumOne(s.objs, ids, Pend, f, o);
    WeightsConcat(s.ready, s.objs[f].callbacks);
  }

  lemma SetSinks(s: State, f: Fut, o: Obj, ids: seq<Fut>)
    requires f in s.objs && Distinct(ids) && f in ids && Pend(o) == Pend(s.objs[f])
    ensures Stages(SetObj(s, f, o), ids) + Stage(s.objs[f]) == Stages(s, ids) + Stage(o)
    ensures Queue(SetObj(s, f, o), ids) == Queue(s, ids)
  {
    SumOne(s.objs, ids, Stage, f, o);
    SumOne(s.objs, ids, Pend, f, o);
  }

  lemma MaybeFirst(b: bool, h: Handle, rest: seq<Handle>)
    ensures Weights((if b then [h] else []) + rest) <= Weight(h) + Weights(rest)
  {
    WeightsConcat(if b then [h] else [], rest);
    assert Weights([h]) == Weight(h) && Weights([]) == 0;
  }

  lemma {:induction false} CancelWeights(s: State, order: seq<Fut>)
    ensures Weights(CancelWakes(s, order)) <= |order|
  {
    if order != [] {
      CancelWeights(s, order[1..]);
      MaybeFirst(Cancellable(s, order[0])
          && Resume(order[0]) !in s.ready, Resume(order[0]), CancelWakes(s, order[1..]));
    }
  }

  lemma CancelSinks(s: State, order: seq<Fut>, ids: seq<Fut>)
    ensures Stages(CancelAll(s, order), ids) == Stages(s, ids)
    ensures Queue(CancelAll(s, order), ids) <= Queue(s, ids) + |order|
  {
    var s1 := CancelAll(s, order);
    SumSame(s.objs, s1.objs, ids, Stage);
    SumSame(s.objs, s1.objs, ids, Pend);
    WeightsConcat(s.ready, CancelWakes(s, order));
    CancelWeights(s, order);
  }

  lemma {:induction false} WaitWeights(s: State, w: Waiter, order: seq<Fut>)
    ensures Weights(WaitCbs(s, w, order)) <= 2 * |order|
  {
    if order != [] {
      WaitWeights(s, w, order[1..]);
      MaybeFirst(IsDone(s, order[0]), WaitCb(w, s.gen, order[0]), WaitCbs(s, w, order[1..]));
    }
  }

  lemma OneCallback(cs: seq<Handle>, w: Waiter, gen: nat, f: Fut)
    ensures Weights(cs + [WaitCb(w, gen, f)]) == Weights(cs) + 2
  {
    WeightsConcat(cs, [WaitCb(w, gen, f)]);
    assert Weights([WaitCb(w, gen, f)]) == 2;
  }

  lemma RegisterSinks(s: State, w: Waiter, order: seq<Fut>, ids: seq<Fut>)
    ensures Sum(Register(s, w, order).objs, ids, Stage) == Sum(s.objs, ids, Stage)
        && Register(s, w, order).root == s.root
    ensures Queue(Register(s, w, order), ids) <= Queue(s, ids) + 2 * |ids| + 2 * |order|
  {
    var s1 := Register(s, w, order);
    SumSame(s.objs, s1.objs, ids, Stage);
    forall f | f in s.objs ensures Pend(s1.objs[f]) <= Pend(s.objs[f]) + 2 {
      OneCallback(s.objs[f].callbacks, w, s.gen, f);
    }
    SumGrows(s.objs, s1.objs, ids, Pend);
    WeightsConcat(s.ready, WaitCbs(s, w, order));
    WaitWeights(s, w, order);
  }

  // ------------------------------------------------- turns

  lemma PopSinks(s: State, ids: seq<Fut>)
    requires s.ready != []
    ensures Stages(Pop(s), ids) == Stages(s, ids) && Queue(Pop(s), ids) + Weight(s.ready[0]) == Queue(s, ids)
  {
  }

  /** A task (re-)enters its wait nearer to its end. */
  lemma TaskWaitSinks(s: State, t: Fut, fs: set<Fut>, c: Choice, ids: seq<Fut>)
    requires t in s.objs && !s.objs[t].phase.Done? && Distinct(ids) && t in ids
    requires fs != {} ==> Enumerates(c.waitOrder, fs) && fs <= Elems(ids) && 1 + |fs| < Stage(s.objs[t])
    ensures var s1 := TaskWait(s, t, true, fs, c);
            Stages(s1, ids) < Stages(s, ids) && Queue(s1, ids) <= Queue(s, ids) + 4 * |ids|
  {
    if fs == {} {
      CompleteSinks(s, t, ids);
    } else {
      var o := s.objs[t].(phase := Waiting(true, fs, s.gen), cancel := false, started := s.objs[t].started + fs);
      SetSinks(s, t, o, ids);
      RegisterSinks(SetObj(s, t, o), TaskWaiter(t), c.waitOrder, ids);
      OrderFits(c.waitOrder, fs, ids);
    }
  }

  lemma UndoneFewer(s: State, fs: set<Fut>)
    requires AnyDone(s, fs)
    ensures Undone(s, fs) <= fs && |Undone(s, fs)| < |fs|
  {
    var f :| f in fs && IsDone(s, f);
    assert f !in Undone(s, fs);
    Subset(Undone(s, fs), fs);
  }

  lemma StepTaskSinks(p: State, t: Fut, c: Choice, ids: seq<Fut>)
    requires t in p.objs && !p.objs[t].phase.Done? && !p.objs[t].phase.Active? && Distinct(ids) && t in ids
    requires p.objs[t].cancel || (p.objs[t].phase.Waiting? && p.objs[t].phase.second && AnyDone(p, p.objs[t].phase.fs))
    requires p.objs[t].phase.Waiting? ==>
               var o := p.objs[t];
               && o.phase.fs <= Elems(ids) && (o.cancel && !o.phase.second ==> Enumerates(c.cancelOrder, o.phase.fs))
               && Enumerates(c.waitOrder,
                    if !o.cancel then Undone(p, o.phase.fs) else if o.phase.second then {} else o.phase.fs)
    ensures var s1 := StepTask(p, t, c);
            Stages(s1, ids) < Stages(p, ids) && Queue(s1, ids) <= Queue(p, ids) + 5 * |ids|
  {
    var o := p.objs[t];
    if o.phase.Fresh? || (o.cancel && o.phase.second) {
      CompleteSinks(p, t, ids);
    } else if o.cancel {
      var s1 := CancelAll(p, c.cancelOrder);
      CancelSinks(p, c.cancelOrder, ids);
      OrderFits(c.cancelOrder, o.phase.fs, ids);
      TaskWaitSinks(s1, t, o.phase.fs, c, ids);
    } else {
      UndoneFewer(p, o.phase.fs);
      TaskWaitSinks(p, t, Undone(p, o.phase.fs), c, ids);
    }
  }

  lemma BodySinks(p: State, f: Fut, c: Choice, ids: seq<Fut>)
    requires f in p.objs && !p.objs[f].phase.Done? && !p.objs[f].phase.Waiting? && Distinct(ids) && f in ids
    requires c.finish && c.starts == []
    ensures var s1 := StepBody(p, f, c); Stages(s1, ids) < Stages(p, ids) && Queue(s1, ids) <= Queue(p, ids)
  {
    var o := p.objs[f].(phase := Active, cancel := false);
    StartNothing(SetObj(p, f, o), CiTask);
    SetSinks(p, f, o, ids);
    CompleteSinks(SetObj(p, f, o), f, ids);
  }

  /** What the measure needs to know of a state. */
  ghost predicate Measured(s: State, ids: seq<Fut>) {
    Inv(s) && Genuine(s) && Swept(s) && Enumerates(ids, s.objs.Keys)
  }

  lemma ResumeSinks(s: State, f: Fut, c: Choice, ids: seq<Fut>)
    requires Measured(s, ids) && s.ready != [] && s.ready[0] == Resume(f) && ChoiceOk(s, Resume(f), c)
    requires !s.objs[f].kind.CiTask? ==> c.finish && c.starts == []
    ensures Sinks(s, TurnOf(s, c), ids)
  {
    ResumeIsLive(s, f);
    PopSinks(s, ids);
    assert TaskOk(s, s.objs[f]);
    if s.objs[f].kind.CiTask? {
      TaskTurnSinks(s, f, c, ids);
    } else {
      BodySinks(Pop(s), f, c, ids);
    }
  }

  lemma TaskTurnSinks(s: State, t: Fut, c: Choice, ids: seq<Fut>)
    requires Measured(s, ids) && s.ready != [] && s.ready[0] == Resume(t) && ChoiceOk(s, Resume(t), c)
    requires t in s.objs && !s.objs[t].phase.Done? && s.objs[t].kind.CiTask?
    ensures var s1 := StepTask(Pop(s), t, c);
            Stages(s1, ids) < Stages(Pop(s), ids) && Queue(s1, ids) <= Queue(Pop(s), ids) + 5 * |ids|
  {
    var p, o := Pop(s), s.objs[t];
    assert TaskOk(s, o);
    if o.phase.Waiting? {
      assert Undone(p, o.phase.fs) == Undone(s, o.phase.fs);
      assert forall g :: g in o.phase.fs ==> g in s.objs;
      if !o.cancel {
        var f :| f in o.phase.fs && IsDone(s, f);
        assert IsDone(p, f);
      }
    }
    StepTaskSinks(p, t, c, ids);
  }

  lemma {:induction false} CleanupWeights(s: State, order: seq<Fut>)
    ensures Weights(CleanupCbs(s, order)) <= 2 * |order|
  {
    if order != [] {
      CleanupWeights(s, order[1..]);
      MaybeFirst(order[0] in s.cleaned, CleanupWaitCb(order[0]), CleanupCbs(s, order[1..]));
    }
  }

  /** Root.run waits for fewer objects, or for the cleanups. */
  lemma DrainSinks(s: State, c: Choice, ids: seq<Fut>)
    requires s.root.Draining? && s.table <= s.root.waited && s.table != s.root.waited && s.table <= s.objs.Keys
    requires Enumerates(ids, s.objs.Keys) && Elems(s.cleanups) <= s.objs.Keys
    requires Enumerates(c.waitOrder, if s.table != {} then s.table else Elems(s.cleanups))
    ensures var s1 := EnterDrain(s, c);
            Stages(s1, ids) < Stages(s, ids) && Queue(s1, ids) <= Queue(s, ids) + 4 * |ids|
  {
    OrderFits(c.waitOrder, if s.table != {} then s.table else Elems(s.cleanups), ids);
    if s.table == {} {
      CleanupWeights(s, c.waitOrder);
      WeightsConcat(s.ready, CleanupCbs(s, c.waitOrder));
    } else {
      Subset(s.table, s.root.waited);
      RegisterSinks(s.(root := Draining(s.table, s.gen)), RootWaiter, c.waitOrder, ids);
    }
  }

  lemma RootSinks(s: State, c: Choice, ids: seq<Fut>)
    requires Measured(s, ids) && s.ready != [] && s.ready[0] == ResumeRoot && ChoiceOk(s, ResumeRoot, c)
    ensures Sinks(s, TurnOf(s, c), ids)
  {
    PopSinks(s, ids);
    var p := Pop(s);
    if s.root.Draining? {
      assert DrainDone(p) == DrainDone(s);
      var f :| f in s.root.waited && IsDone(s, f);
      assert f in DrainDone(p);
      var q := p.(table := p.table - DrainDone(p));
      assert Stages(q, ids) == Stages(p, ids) && Queue(q, ids) == Queue(p, ids);
      DrainSinks(q, c, ids);
    }
  }

  lemma CallbackSinks(s: State, c: Choice, ids: seq<Fut>)
    requires s.ready != [] && !s.ready[0].Resume? && !s.ready[0].ResumeRoot? && ChoiceOk(s, s.ready[0], c)
    ensures Sinks(s, TurnOf(s, c), ids)
  {
    var p, s1 := Pop(s), TurnOf(s, c);
    PopSinks(s, ids);
    assert s1.objs == p.objs && RootStage(s1.root) == RootStage(p.root);
    assert exists hs :: s1.ready == p.ready + hs && Weights(hs) < Weight(s.ready[0]) by {
      CallbackPushes(s, c);
    }
    var hs :| s1.ready == p.ready + hs && Weights(hs) < Weight(s.ready[0]);
    WeightsConcat(p.ready, hs);
  }

  lemma CallbackPushes(s: State, c: Choice)
    requires s.ready != [] && !s.ready[0].Resume? && !s.ready[0].ResumeRoot? && ChoiceOk(s, s.ready[0], c)
    ensures exists hs :: TurnOf(s, c).ready == Pop(s).ready + hs && Weights(hs) < Weight(s.ready[0])
  {
    var p, s1, h := Pop(s), TurnOf(s, c), s.ready[0];
    assert Weights([]) == 0 && p.ready + [] == p.ready;
    var next := match h
      case WaitCb(w, _, _) => (match w case RootWaiter => ResumeRoot case TaskWaiter(t) => Resume(t))
      case CleanupCb(f) => ResumeCleanup(f)
      case ResumeCleanup(f) => CleanupWaitCb(f)
      case _ => ResumeRoot;
    assert Weights([next]) == Weight(next);
    assert s1.ready == p.ready + [] || s1.ready == p.ready + [next];
  }

  /** Every turn of a prompt shutdown lowers the potential. */
  lemma TurnSinks(s: State, a: Action, ids: seq<Fut>)
    requires Measured(s, ids) && Enabled(s, a) && Prompt(s, a) && a.Turn?
    ensures Potential(Next(s, a), ids) < Potential(s, ids)
  {
    if s.ready[0].Resume? {
      ResumeSinks(s, s.ready[0].f, a.c, ids);
    } else if s.ready[0].ResumeRoot? {
      RootSinks(s, a.c, ids);
    } else {
      CallbackSinks(s, a.c, ids);
    }
    SinksPotential(s, Next(s, a), ids);
  }

  // ------------------------------------------------- runs

  lemma OnlyCleanupsWake(s: State, a: Action)
    requires Swept(s) && Enabled(s, a) && !a.Cancel? && !a.Turn?
    ensures a.WakeCleanup?
  {
  }

  /** Only the end of a command of a cleanup comes from outside: services and jobs are queued. */
  lemma OutsideLifts(s: State, a: Action, ids: seq<Fut>)
    requires Swept(s) && Inv(s) && Enabled(s, a) && Prompt(s, a) && !a.Turn?
    ensures a.WakeCleanup? && Potential(Next(s, a), ids) == Potential(s, ids) + 3
  {
    OnlyCleanupsWake(s, a);
    WeightsConcat(s.ready, [ResumeCleanup(a.f)]);
    assert Weights([ResumeCleanup(a.f)]) == 3;
  }

  function Turns(acts: seq<Action>): nat {
    if acts == [] then 0 else (if acts[0].Turn? then 1 else 0) + Turns(acts[1..])
  }

  /** After the sweep, a prompt run has at most as many turns as the potential, and three more for
      every command of a cleanup. */
  lemma {:induction false} ShutdownIsBounded(s: State, acts: seq<Action>, ids: seq<Fut>)
    requires Measured(s, ids) && ValidRun(s, acts) && PromptRun(s, acts)
    ensures Measured(Final(s, acts), ids)
    ensures Turns(acts) + Potential(Final(s, acts), ids) <= Potential(s, ids) + 3 * (|acts| - Turns(acts))
    decreases |acts|
  {
    if acts != [] {
      var a := acts[0];
      SweptStep(s, a);
      NextGenuine(s, a);
      NextKeeps(s, a);
      if a.Turn? {
        TurnSinks(s, a, ids);
      } else {
        OutsideLifts(s, a, ids);
      }
      ShutdownIsBounded(Next(s, a), acts[1..], ids);
    }
  }

  lemma {:induction false} Enumeration(fs: set<Fut>) returns (ids: seq<Fut>)
    ensures Enumerates(ids, fs)
    decreases |fs|
  {
    if fs == {} {
      ids := [];
    } else {
      var f :| f in fs;
      var rest := Enumeration(fs - {f});
      assert f !in rest;
      ids := [f] + rest;
    }
  }

  /** With nothing queued, only a cleanup can be left to wait for. */
  lemma IdleWaitsForCleanups(s: State)
    requires Inv(s) && Woken(s) && Swept(s) && s.ready == [] && forall f :: f in s.cleanups ==> f in s.cleaned
    ensures s.root.Stopped?
  {
    IdleIsMovable(s);
  }

  /** From the sweep on, whatever happened before: if services and jobs end when their cancellation
      reaches them, the loop makes a bounded number of turns, and once nothing is queued and the
      cleanups it has scheduled are over, it has stopped. */
  lemma PromptShutdown(services: seq<Fut>, before: seq<Action>, c: Choice, after: seq<Action>) returns (ids: seq<Fut>)
    requires Distinct(services) && ValidRun(Init(services), before)
    requires var m := Final(Init(services), before);
             && m.root.AwaitStop? && m.ready != [] && m.ready[0] == ResumeRoot && Enabled(m, Turn(c))
             && ValidRun(Next(m, Turn(c)), after) && PromptRun(Next(m, Turn(c)), after)
    ensures var s := Next(Final(Init(services), before), Turn(c));
            && Enumerates(ids, s.objs.Keys)
            && Turns(after) <= Potential(s, ids) + 3 * (|after| - Turns(after))
            && var s1 := Final(s, after);
               (s1.ready == [] && (forall f :: f in s1.cleanups ==> f in s1.cleaned) ==> s1.root.Stopped?)
  {
    var m := Final(Init(services), before);
    var s := Next(m, Turn(c));
    InitHolds(services);
    InitWoken(services);
    InitGenuine(services);
    RunKeeps(Init(services), before);
    WokenRun(Init(services), before);
    GenuineRun(Init(services), before);
    NextKeeps(m, Turn(c));
    NextWoken(m, Turn(c));
    NextGenuine(m, Turn(c));
    SweepSweeps(m, c);
    ids := Enumeration(s.objs.Keys);
    ShutdownIsBounded(s, after, ids);
    WokenRun(s, after);
    var s1 := Final(s, after);
    if s1.ready == [] && (forall f :: f in s1.cleanups ==> f in s1.cleaned) {
      IdleWaitsForCleanups(s1);
    }
  }
}
